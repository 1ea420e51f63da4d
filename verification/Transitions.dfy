/**
  What one event does to a connection, written out over the fields of the PDU and of the connection:
  a table of states, answers and records, the marks that every PDU sent carries, and what the queues
  take and refuse.  Nothing here is stated in terms of the checks and handlers of SafetyLayer.
 */
module Transitions {
  import opened Packets
  import opened SafetyLayer
  import Runs

  // ----- what the fields of an arriving PDU say -----

  predicate Addressed(c: Conn, p: Packet) {
    p.sender == c.cfg.remoteId && p.receiver == c.cfg.myId
  }

  predicate InWindow(c: Conn, p: Packet) {
    p.kind == RetrResp || c.snR <= p.sn <= c.snR + 10 * c.cfg.sendMax
  }

  predicate Confirming(c: Conn, p: Packet) {
    c.csR <= p.cs < c.snT
  }

  /** What a PDU outside the handshake must satisfy to be looked at. */
  predicate Plausible(c: Conn, p: Packet) {
    p.intact && Addressed(c, p) && InWindow(c, p) && Confirming(c, p)
  }

  predicate Expected(c: Conn, p: Packet) {
    p.sn == c.snR
  }

  predicate Timely(c: Conn, p: Packet) {
    c.ctsR == 0 || c.ctsR <= p.cts < c.ctsR + c.cfg.tMax
  }

  predicate Idle(s: State) {
    s == Closed || s == Down
  }

  predicate Opens(c: Conn, p: Packet, versionOk: bool) {
    Idle(c.state) && p.intact && Addressed(c, p) && p.cs == 0 && versionOk
  }

  predicate Answers(c: Conn, p: Packet) {
    p.intact && Addressed(c, p) && p.cs + 1 == c.snT
  }

  // ----- the table -----

  datatype Row = Row(
    next: State,       // the state behind the event
    says: seq<Kind>,   // the PDUs without messages that are sent, in order
    notes: bool,       // number and timestamp of the PDU are recorded
    credits: bool,     // its confirmed number is recorded
    dates: bool,       // its confirmed timestamp is recorded
    takes: bool,       // its messages go to the receive queue
    resets: bool)      // the error counters start again

  function Stay(s: State): Row {
    Row(s, [], false, false, false, false, false)
  }

  function Shut(s: State): Row {
    Row(Closed, if Idle(s) then [] else [DiscReq], false, false, false, false, true)
  }

  const ASK := Row(RetrRequested, [RetrReq], false, false, false, false, false)

  function OnConnReq(c: Conn, p: Packet, versionOk: bool): Row {
    if Opens(c, p, versionOk) then Row(Start, [ConnResp], true, true, true, false, true) else Shut(c.state)
  }

  function OnConnResp(c: Conn, p: Packet, versionOk: bool): Row {
    if !Answers(c, p) then Shut(c.state)
    else if Idle(c.state) then Stay(c.state)
    else if c.state == Start && c.role == Client && versionOk then
      Row(Up, [Heartbeat], true, true, false, false, false)
    else Shut(c.state)
  }

  function OnData(c: Conn, p: Packet): Row {
    match c.state
    case Start => Shut(Start)
    case Up =>
      if !Expected(c, p) then ASK
      else if !Timely(c, p) then Shut(Up)
      else Row(Up, [], true, true, true, true, false)
    case RetrRunning =>
      if !Expected(c, p) then ASK
      else if !Timely(c, p) then Shut(RetrRunning)
      else Row(RetrRunning, [], true, false, false, false, false)
    case _ => Stay(c.state)
  }

  function OnRetrReq(c: Conn, p: Packet): Row {
    if !Expected(c, p) then Row(RetrRequested, [RetrResp, Heartbeat], false, true, false, false, false)
    else if c.state == RetrRunning then
      Row(Closed, [DiscReq, RetrResp, Heartbeat], true, true, false, false, true)
    else Row(c.state, [RetrResp, Heartbeat], true, true, false, false, false)
  }

  function OnRetrResp(c: Conn): Row {
    if c.state == RetrRequested then Row(RetrRunning, [], true, true, true, false, false) else Shut(c.state)
  }

  function OnRetrData(c: Conn, p: Packet): Row {
    match c.state
    case Up => Shut(Up)
    case RetrRunning =>
      if !Expected(c, p) then ASK
      else if !Timely(c, p) then Shut(RetrRunning)
      else Row(RetrRunning, [], true, true, false, true, false)
    case _ => Stay(c.state)
  }

  function OnHeartbeat(c: Conn, p: Packet): Row {
    match c.state
    case Start =>
      if !Timely(c, p) then Shut(Start)
      else if c.role == Server && Expected(c, p) then Row(Up, [], true, true, false, false, false)
      else Row(Up, [DiscReq], true, true, false, false, true)
    case Up =>
      if !Expected(c, p) then Stay(RetrRequested)
      else if !Timely(c, p) then Shut(Up)
      else Row(Up, [], true, true, true, false, false)
    case RetrRunning =>
      if !Expected(c, p) then Stay(RetrRequested)
      else if !Timely(c, p) then Shut(RetrRunning)
      else Row(Up, [], true, true, true, false, false)
    case _ => Stay(c.state)
  }

  /** The row of the table for a PDU that arrives. */
  function RowOf(c: Conn, p: Packet, versionOk: bool): Row {
    match p.kind
    case ConnReq => OnConnReq(c, p, versionOk)
    case ConnResp => OnConnResp(c, p, versionOk)
    case _ =>
      if !Plausible(c, p) then Stay(c.state)
      else
        match p.kind
        case Data => OnData(c, p)
        case RetrReq => OnRetrReq(c, p)
        case RetrResp => OnRetrResp(c)
        case RetrData => OnRetrData(c, p)
        case Heartbeat => OnHeartbeat(c, p)
        case DiscReq => Row(Closed, [], false, false, false, false, true)
        case _ => Stay(c.state)
  }

  /** The kinds of the PDUs that carry no messages. */
  function Controls(ps: seq<Packet>): seq<Kind> {
    if ps == [] then []
    else Controls(ps[..|ps| - 1]) + if Bears(ps[|ps| - 1]) then [] else [ps[|ps| - 1].kind]
  }

  /** The error counters behind an arrival that does not reset them: the first test that failed counts. */
  function Counted(c: Conn, p: Packet): Errors {
    if p.kind == ConnReq || p.kind == ConnResp then c.errors
    else if !p.intact then c.errors.(safety := c.errors.safety + 1)
    else if !Addressed(c, p) then c.errors.(address := c.errors.address + 1)
    else if !InWindow(c, p) then c.errors.(sn := c.errors.sn + 1)
    else if !Confirming(c, p) then c.errors.(cs := c.errors.cs + 1)
    else if p.kind == Unknown then c.errors.(kind := c.errors.kind + 1)
    else if p.kind == Data && !Expected(c, p) && (c.state == Up || c.state == RetrRunning) then
      c.errors.(sn := c.errors.sn + 1)
    else c.errors
  }

  /** From c to c' the first messages of p were buffered, as many as there was room for. */
  predicate Buffers(c: Conn, p: Packet, c': Conn) {
    exists k: nat ::
      && k <= |p.batch| && c'.fifoRecv == c.fifoRecv + p.batch[..k]
      && c'.log.delivered == c.log.delivered + p.batch[..k]
      && c'.log.dropped == c.log.dropped + (|p.batch| - k)
      && (k > 0 ==> |c'.fifoRecv| <= c.cfg.recvQueueSize)
      && (k < |p.batch| ==> |c'.fifoRecv| >= c.cfg.recvQueueSize)
  }

  predicate BuffersNothing(c: Conn, c': Conn) {
    c'.fifoRecv == c.fifoRecv && c'.log.delivered == c.log.delivered && c'.log.dropped == c.log.dropped
  }

  /** From c to c' the connection did what the row says. */
  predicate Does(c: Conn, p: Packet, row: Row, c': Conn) {
    && c'.cfg == c.cfg && c'.state == row.next
    && Controls(c'.log.sent) == Controls(c.log.sent) + row.says
    && c'.snR == (if row.notes then p.sn + 1 else c.snR)
    && c'.csT == (if row.notes then p.sn else c.csT)
    && c'.tsR == (if row.notes then p.ts else c.tsR)
    && c'.csR == (if row.credits then p.cs else c.csR)
    && c'.ctsR == (if row.dates then p.cts else c.ctsR)
    && c'.log.accepted == (if row.takes then c.log.accepted + [p] else c.log.accepted)
    && c'.hbLocked == (if c.state == Start && row.next == Up then false else c.hbLocked || row.resets)
    && c'.errors == (if row.resets then NO_ERRORS else Counted(c, p))
    && (if row.takes then Buffers(c, p, c') else BuffersNothing(c, c'))
    && c'.role == (if p.kind == ConnReq && Idle(c.state) then Server else c.role)
    && c'.snI == (if p.kind == ConnReq && Idle(c.state) then c.cfg.initialSn else c.snI)
  }

  // ----- the marks of the PDUs that are sent -----

  /** A PDU of c sent at this time, confirming number cs and timestamp ts. */
  predicate Marked(q: Packet, c: Conn, now: nat, cs: nat, ts: nat) {
    && q.sender == c.cfg.myId && q.receiver == c.cfg.remoteId && q.intact
    && q.ts == now && q.cs == cs && q.cts == ts && (Bears(q) || q.batch == [])
  }

  /**
    An answer confirms what is recorded behind the event; a disconnection request goes out before
    anything is recorded, and a connection response gives the request's own confirmed timestamp back.
   */
  predicate MarkedAnswer(q: Packet, c: Conn, p: Packet, now: nat, c': Conn) {
    match q.kind
    case DiscReq => Marked(q, c, now, c.csT, c.tsR)
    case ConnResp => Marked(q, c, now, c'.csT, p.cts)
    case _ => Marked(q, c, now, c'.csT, c'.tsR)
  }

  predicate AllMarked(c: Conn, c': Conn, now: nat, cs: nat, ts: nat) {
    && c.log.sent <= c'.log.sent
    && forall m :: |c.log.sent| <= m < |c'.log.sent| ==> Marked(c'.log.sent[m], c, now, cs, ts)
  }

  /** None of the new PDUs is a disconnection request or a connection response. */
  predicate AllPlain(c: Conn, c': Conn) {
    forall m :: |c.log.sent| <= m < |c'.log.sent| ==>
      !c'.log.sent[m].kind.DiscReq? && !c'.log.sent[m].kind.ConnResp?
  }

  /** Every answer is marked, and only the first can be a disconnection request. */
  predicate AnswersMarked(c: Conn, p: Packet, now: nat, c': Conn) {
    && c.log.sent <= c'.log.sent
    && (forall m :: |c.log.sent| < m < |c'.log.sent| ==> !c'.log.sent[m].kind.DiscReq?)
    && forall m :: |c.log.sent| <= m < |c'.log.sent| ==> MarkedAnswer(c'.log.sent[m], c, p, now, c')
  }

  // ----- sending and removing -----

  lemma ControlsSnoc(ps: seq<Packet>, p: Packet)
    ensures Controls(ps + [p]) == Controls(ps) + if Bears(p) then [] else [p.kind]
  {
    assert (ps + [p])[..|ps|] == ps;
  }

  lemma {:induction false} ControlsOfData(ps: seq<Packet>, ds: seq<Packet>)
    requires forall m :: 0 <= m < |ds| ==> Bears(ds[m])
    ensures Controls(ps + ds) == Controls(ps)
  {
    hide Controls;
    if ds == [] {
      assert ps + ds == ps;
    } else {
      var n := |ds| - 1;
      ControlsOfData(ps, ds[..n]);
      ControlsSnoc(ps + ds[..n], ds[n]);
      assert ps + ds[..n] + [ds[n]] == ps + ds;
    }
  }

  /** The fields that sending and removing data leave alone. */
  predicate SameRecords(c: Conn, c': Conn) {
    && c'.cfg == c.cfg && c'.role == c.role && c'.snI == c.snI && c'.state == c.state && c'.hbLocked == c.hbLocked
    && c'.snR == c.snR && c'.csT == c.csT && c'.csR == c.csR && c'.tsR == c.tsR && c'.ctsR == c.ctsR
    && c'.errors == c.errors && c'.fifoRecv == c.fifoRecv && c'.log.accepted == c.log.accepted
    && c'.log.delivered == c.log.delivered && c'.log.dropped == c.log.dropped
  }

  predicate OnlyData(c: Conn, c': Conn, now: nat) {
    && SameRecords(c, c') && Controls(c'.log.sent) == Controls(c.log.sent)
    && AllMarked(c, c', now, c.csT, c.tsR) && AllPlain(c, c')
  }

  /** One more PDU that carries messages. */
  lemma OneMoreData(c: Conn, p: Packet, c': Conn, now: nat)
    requires SameRecords(c, c') && c'.log.sent == c.log.sent + [p] && Bears(p) && Marked(p, c, now, c.csT, c.tsR)
    ensures OnlyData(c, c', now)
  {
    hide Controls, Marked, SameRecords;
    ControlsSnoc(c.log.sent, p);
  }

  lemma FlushOnlyData(c: Conn, now: nat)
    ensures OnlyData(c, DataSend(c, now), now)
  {
    hide Controls, BatchSize, OnlyData;
    var c' := DataSend(c, now);
    if c' == c {
      NothingMore(c, now);
    } else {
      OneMoreData(c, DataPdu(c, now), c', now);
    }
  }

  lemma NothingMore(c: Conn, now: nat)
    ensures OnlyData(c, c, now)
  {
    hide Controls;
  }

  lemma RemoveOnlyData(c: Conn, now: nat)
    ensures OnlyData(c, RemoveConfirmed(c, now), now)
  {
    hide Controls, DataSend, PopConfirmed;
    FlushOnlyData(c.(fifoRetr := PopConfirmed(c.fifoRetr, c.csR)), now);
  }

  lemma RetransmitSays(c: Conn, now: nat)
    ensures
      var c' := Retransmit(c, now);
      && SameRecords(c, c') && AllMarked(c, c', now, c.csT, c.tsR) && AllPlain(c, c')
      && Controls(c'.log.sent) == Controls(c.log.sent) + [Heartbeat]
  {
    hide Controls;
    var b := Burst(c, now);
    assert forall k :: 0 <= k < |b| ==> b[k] == Renumbered(c, k, now);
    ControlsOfData(c.log.sent, b);
    var c1 := c.(fifoRetr := b, snT := c.snT + |b|, log := c.log.(sent := c.log.sent + b));
    ControlsSnoc(c1.log.sent, Control(c1, Heartbeat, now));
  }

  /** Response, queued batches, heartbeat, all marked alike. */
  lemma RespondSays(c: Conn, p: Packet, now: nat)
    ensures
      var c' := Respond(c, p, now);
      && SameRecords(c.(csR := p.cs), c') && AllMarked(c, c', now, c.csT, c.tsR) && AllPlain(c, c')
      && Controls(c'.log.sent) == Controls(c.log.sent) + [RetrResp, Heartbeat]
  {
    hide Controls, RemoveConfirmed, Retransmit;
    var c1 := c.(csR := p.cs);
    RemoveOnlyData(c1, now);
    var c2 := RemoveConfirmed(c1, now);
    ControlsSnoc(c2.log.sent, Control(c2, RetrResp, now));
    RetransmitSays(SendRetrResp(c2, now), now);
  }

  lemma CloseSays(c: Conn, now: nat)
    ensures
      var c' := Close(c, now);
      && Controls(c'.log.sent) == Controls(c.log.sent) + (if Idle(c.state) then [] else [DiscReq])
      && AllMarked(c, c', now, c.csT, c.tsR)
  {
    hide Controls;
    ControlsSnoc(c.log.sent, Control(c, DiscReq, now));
    assert Controls(c.log.sent) + [] == Controls(c.log.sent);
  }

  // ----- the handlers follow the table -----

  /** The handler's result follows the row and its PDUs are marked. */
  predicate Obeys(c: Conn, p: Packet, row: Row, now: nat, c': Conn) {
    Does(c, p, row, c') && AnswersMarked(c, p, now, c')
  }

  lemma ShutObeys(c: Conn, errors: Errors, p: Packet, now: nat)
    requires p.kind != ConnReq || !Idle(c.state)
    ensures Obeys(c, p, Shut(c.state), now, Close(c.(errors := errors), now))
  {
    hide Controls;
    CloseSays(c.(errors := errors), now);
  }

  lemma AskObeys(c: Conn, p: Packet, now: nat)
    requires p.kind != ConnReq && c.state != Start
    ensures Obeys(c, p, ASK, now, SendRetrReq(c.(errors := Counted(c, p)), now).(state := RetrRequested))
  {
    hide Controls, Counted;
    ControlsSnoc(c.log.sent, Control(c, RetrReq, now));
  }

  lemma StayObeys(c: Conn, p: Packet, now: nat, st: State)
    requires p.kind != ConnReq && (c.state == Start ==> st == Start)
    ensures Obeys(c, p, Stay(st), now, c.(errors := Counted(c, p), state := st))
  {
    hide Controls, Counted;
    assert Controls(c.log.sent) + [] == Controls(c.log.sent);
  }

  lemma AddAppMessagesBuffers(c: Conn, p: Packet)
    ensures Buffers(c, p, AddAppMessages(c, p))
  {
    var k := Min(|p.batch|, FreeRoom(c.cfg.recvQueueSize, |c.fifoRecv|));
    assert AddAppMessages(c, p).fifoRecv == c.fifoRecv + p.batch[..k];
  }

  lemma DataTaken(c: Conn, p: Packet, now: nat)
    requires p.kind == Data && Plausible(c, p) && c.state == Up && Expected(c, p)
    ensures Obeys(c, p, Row(Up, [], true, true, true, true, false), now,
                  RemoveConfirmed(UpdateConfirmed(UpdateConnection(AddAppMessages(c, p), p), p), now))
  {
    hide Controls, RemoveConfirmed;
    AddAppMessagesBuffers(c, p);
    assert Controls(c.log.sent) + [] == Controls(c.log.sent);
    RemoveOnlyData(UpdateConfirmed(UpdateConnection(AddAppMessages(c, p), p), p), now);
  }

  lemma DataObeys(c: Conn, p: Packet, now: nat)
    requires p.kind == Data && Plausible(c, p)
    ensures Obeys(c, p, OnData(c, p), now, HandleData(c, p, now))
  {
    hide Obeys, RemoveConfirmed, AddAppMessages, Close;
    ShutObeys(c, c.errors, p, now);
    ShutObeys(c, c.errors.(cs := c.errors.cs + 1), p, now);
    if c.state != Start {
      AskObeys(c, p, now);
      StayObeys(c, p, now, c.state);
      if c.state == RetrRunning && Expected(c, p) {
        DataNoted(c, p, now);
      } else if c.state == Up && Expected(c, p) {
        DataTaken(c, p, now);
      }
    }
  }

  lemma DataNoted(c: Conn, p: Packet, now: nat)
    requires p.kind == Data && Plausible(c, p) && c.state == RetrRunning && Expected(c, p)
    ensures Obeys(c, p, Row(RetrRunning, [], true, false, false, false, false), now, UpdateConnection(c, p))
  {
    hide Controls;
    assert Controls(c.log.sent) + [] == Controls(c.log.sent);
  }

  lemma RetrReqObeys(c: Conn, p: Packet, now: nat)
    requires p.kind == RetrReq && Plausible(c, p)
    ensures Obeys(c, p, OnRetrReq(c, p), now, HandleRetrReq(c, p, now))
  {
    hide Controls, Respond;
    CloseSays(c, now);
    var c1 := if c.state == RetrRunning then Close(c, now) else c;
    RespondSays(UpdateConnection(c1, p), p, now);
    assert Controls(c.log.sent) + [DiscReq] + [RetrResp, Heartbeat] == Controls(c.log.sent) + [DiscReq, RetrResp, Heartbeat];
    assert Controls(c.log.sent) + [] == Controls(c.log.sent);
    RespondSays(c, p, now);
  }

  lemma RetrDataTaken(c: Conn, p: Packet)
    requires p.kind == RetrData && Plausible(c, p) && c.state == RetrRunning && Expected(c, p)
    ensures
      forall now :: Obeys(c, p, Row(RetrRunning, [], true, true, false, true, false), now,
                          UpdateConnection(AddAppMessages(c, p), p).(csR := p.cs))
  {
    hide Controls;
    AddAppMessagesBuffers(c, p);
    assert Controls(c.log.sent) + [] == Controls(c.log.sent);
  }

  lemma RetrDataObeys(c: Conn, p: Packet, now: nat)
    requires p.kind == RetrData && Plausible(c, p)
    ensures Obeys(c, p, OnRetrData(c, p), now, HandleRetrData(c, p, now))
  {
    hide Obeys, AddAppMessages, Close;
    ShutObeys(c, c.errors, p, now);
    StayObeys(c, p, now, c.state);
    if c.state != Start {
      AskObeys(c, p, now);
      if c.state == RetrRunning && Expected(c, p) {
        RetrDataTaken(c, p);
      }
    }
  }

  /** Closing a closed connection changes nothing more. */
  lemma ClosedTwice(c: Conn, p: Packet, now: nat)
    requires p.kind == Heartbeat && c.state == Start
    ensures
      var c1 := if !SnInSeq(c, p) then Close(c, now) else c;
      var c2 := if c1.role == Client then Close(c1, now) else c1;
      && c2 == (if c.role == Server && Expected(c, p) then c else Close(c, now))
      && Close(c2, now) == Close(c, now)
  {
  }

  lemma FirstHeartbeatObeys(c: Conn, p: Packet, now: nat)
    requires p.kind == Heartbeat && Plausible(c, p) && c.state == Start
    ensures Obeys(c, p, OnHeartbeat(c, p), now, HandleFirstHeartbeat(c, p, now))
  {
    hide Controls;
    ClosedTwice(c, p, now);
    CloseSays(c, now);
    assert Controls(c.log.sent) + [] == Controls(c.log.sent);
  }

  lemma HeartbeatNoted(c: Conn, p: Packet, now: nat)
    requires p.kind == Heartbeat && Plausible(c, p) && c.state != Start
    ensures Obeys(c, p, Row(Up, [], true, true, true, false, false), now,
                  RemoveConfirmed(UpdateConfirmed(UpdateConnection(c, p), p), now).(state := Up))
  {
    hide Controls, RemoveConfirmed;
    assert Controls(c.log.sent) + [] == Controls(c.log.sent);
    RemoveOnlyData(UpdateConfirmed(UpdateConnection(c, p), p), now);
  }

  lemma HeartbeatObeys(c: Conn, p: Packet, now: nat)
    requires p.kind == Heartbeat && Plausible(c, p)
    ensures Obeys(c, p, OnHeartbeat(c, p), now, HandleHeartbeat(c, p, now))
  {
    hide Obeys, RemoveConfirmed, HandleFirstHeartbeat, Close;
    if c.state == Start {
      FirstHeartbeatObeys(c, p, now);
    } else {
      ShutObeys(c, c.errors, p, now);
      StayObeys(c, p, now, c.state);
      StayObeys(c, p, now, RetrRequested);
      HeartbeatNoted(c, p, now);
    }
  }

  lemma ConnReqObeys(c: Conn, p: Packet, env: Env)
    requires p.kind == ConnReq
    ensures Obeys(c, p, OnConnReq(c, p, env.versionOk), env.now, HandleConnReq(c, p, env))
  {
    hide Controls;
    CloseSays(c, env.now);
    var c1 := Reset(c).(role := Server, snT := c.cfg.initialSn, snI := c.cfg.initialSn, state := Down);
    CloseSays(c1, env.now);
    var c2 := UpdateConfirmed(UpdateConnection(c1, p), p);
    ControlsSnoc(c2.log.sent, Control(c2, ConnResp, env.now).(cts := c2.ctsR));
  }

  lemma ConnRespObeys(c: Conn, p: Packet, env: Env)
    requires p.kind == ConnResp
    ensures Obeys(c, p, OnConnResp(c, p, env.versionOk), env.now, HandleConnResp(c, p, env))
  {
    hide Controls, Close;
    ShutObeys(c, c.errors, p, env.now);
    StayObeys(c, p, env.now, c.state);
    var c1 := UpdateConnection(c, p).(csR := p.cs, state := Up);
    ControlsSnoc(c1.log.sent, Control(c1, Heartbeat, env.now));
  }

  lemma PlausibleIsAdmitted(c: Conn, p: Packet)
    requires p.kind != ConnReq && p.kind != ConnResp
    ensures Plausible(c, p) <==> Admitted(c, p)
  {
  }

  lemma CheckedObeys(c: Conn, p: Packet, env: Env)
    requires p.kind != ConnReq && p.kind != ConnResp && Plausible(c, p)
    ensures Obeys(c, p, RowOf(c, p, env.versionOk), env.now, HandleChecked(c, p, env.now))
  {
    hide Controls, HandleData, HandleRetrReq, HandleRetrData, HandleHeartbeat;
    match p.kind {
      case Data => DataObeys(c, p, env.now);
      case RetrReq => RetrReqObeys(c, p, env.now);
      case RetrData => RetrDataObeys(c, p, env.now);
      case Heartbeat => HeartbeatObeys(c, p, env.now);
      case _ => CloseSays(c, env.now);
    }
  }

  /**
    Every arrival, in every state: the state afterwards, the PDUs without messages that are sent,
    the numbers and timestamps recorded and the messages taken are those of the table, and every PDU
    sent is marked with the clock and with what was recorded.
   */
  lemma ArrivalFollowsTable(c: Conn, p: Packet, env: Env)
    ensures Does(c, p, RowOf(c, p, env.versionOk), Receive(c, p, env))
    ensures AnswersMarked(c, p, env.now, Receive(c, p, env))
  {
    hide Controls, HandleChecked, HandleConnReq, HandleConnResp;
    if p.kind == ConnReq {
      ConnReqObeys(c, p, env);
    } else if p.kind == ConnResp {
      ConnRespObeys(c, p, env);
    } else {
      PlausibleIsAdmitted(c, p);
      if Plausible(c, p) {
        CheckedObeys(c, p, env);
      }
    }
  }

  /** Outside the handshake a PDU that fails a test only adds one to the counter of the first test it fails. */
  lemma ImplausibleIsCounted(c: Conn, p: Packet, env: Env)
    requires p.kind != ConnReq && p.kind != ConnResp && !Plausible(c, p)
    ensures
      Receive(c, p, env) == c.(errors :=
        if !p.intact then c.errors.(safety := c.errors.safety + 1)
        else if !Addressed(c, p) then c.errors.(address := c.errors.address + 1)
        else if !InWindow(c, p) then c.errors.(sn := c.errors.sn + 1)
        else c.errors.(cs := c.errors.cs + 1))
  {
  }

  /**
    Messages are buffered exactly if safety code, identities, number, confirmed number and confirmed
    timestamp lie in these ranges and data meets Up, or retransmitted data a running retransmission.
   */
  lemma TakenExactlyWhen(c: Conn, p: Packet, env: Env)
    ensures
      Receive(c, p, env).log.accepted == c.log.accepted + [p] <==>
      && p.intact && p.sender == c.cfg.remoteId && p.receiver == c.cfg.myId
      && p.sn == c.snR && c.csR <= p.cs < c.snT
      && (c.ctsR == 0 || c.ctsR <= p.cts < c.ctsR + c.cfg.tMax)
      && ((p.kind == Data && c.state == Up) || (p.kind == RetrData && c.state == RetrRunning))
    ensures
      Receive(c, p, env).log.accepted == c.log.accepted || Receive(c, p, env).log.accepted == c.log.accepted + [p]
  {
    hide Receive, Controls, AnswersMarked;
    ArrivalFollowsTable(c, p, env);
    assert c.log.accepted != c.log.accepted + [p];
  }

  // ----- application and timers -----

  /** The connection is established and its timers run. */
  predicate Ticking(c: Conn) {
    !c.hbLocked && (c.state == Up || c.state == RetrRequested || c.state == RetrRunning)
  }

  /** The event ends the session in an orderly way. */
  predicate Finishes(c: Conn, e: Local) {
    e == AppDisconnects || e == TransportsLost || (e == TimeoutTimer && Ticking(c))
  }

  function LocalState(c: Conn, e: Local): State {
    if Finishes(c, e) || (e.AppSends? && c.state != Up) then Closed else c.state
  }

  function LocalSays(c: Conn, e: Local): seq<Kind> {
    match e
    case AppSends(_) => if c.state == Up || Idle(c.state) then [] else [DiscReq]
    case AppDisconnects => if Idle(c.state) then [] else [DiscReq]
    case TimeoutTimer => if Ticking(c) then [DiscReq] else []
    case HeartbeatTimer => if Ticking(c) then [Heartbeat] else []
    case _ => []
  }

  predicate DoesLocally(c: Conn, e: Local, now: nat, c': Conn) {
    && c'.state == LocalState(c, e)
    && Controls(c'.log.sent) == Controls(c.log.sent) + LocalSays(c, e)
    && c'.hbLocked == (c.hbLocked || Finishes(c, e))
    && c'.errors == (if Finishes(c, e) then NO_ERRORS else c.errors)
    && SameRecords(c, c'.(state := c.state, hbLocked := c.hbLocked, errors := c.errors, fifoRecv := c.fifoRecv))
    && AllMarked(c, c', now, c.csT, c.tsR)
  }

  lemma {:induction false} EnqueueOnlyData(c: Conn, ms: seq<Message>, now: nat)
    ensures OnlyData(c, Enqueue(c, ms, now), now)
    decreases |ms|
  {
    hide Controls, DataSend;
    if ms != [] {
      FlushOnlyData(c, now);
      var c' := if SendQueueFull(c) then DataSend(c, now) else c;
      if !SendQueueFull(c') {
        EnqueueOnlyData(c'.(fifoSend := c'.fifoSend + [ms[0]],
                        log := c'.log.(submitted := c'.log.submitted + [ms[0]])), ms[1..], now);
      }
    }
  }

  /** Every call of the application and every timer, in every state. */
  lemma LocalFollowsTable(c: Conn, e: Local, now: nat)
    ensures DoesLocally(c, e, now, LocalStep(c, e, now))
  {
    hide Controls, DataSend, Enqueue, Close;
    assert Controls(c.log.sent) + [] == Controls(c.log.sent);
    match e {
      case AppSends(ms) =>
        EnqueueOnlyData(c, ms, now);
        ControlsSnoc(c.log.sent, Control(c, DiscReq, now));
      case FlushTimer => FlushOnlyData(c, now);
      case HeartbeatTimer => ControlsSnoc(c.log.sent, Control(c, Heartbeat, now));
      case _ => CloseFinishes(c, now);
    }
  }

  lemma CloseFinishes(c: Conn, now: nat)
    ensures DoesLocally(c, AppDisconnects, now, Close(c, now))
  {
    hide Controls;
    CloseSays(c, now);
  }

  /** The application reads the oldest buffered message exactly if there is one and the connection is Up. */
  lemma FetchesOldest(c: Conn, now: nat)
    ensures
      var c' := LocalStep(c, AppFetches, now);
      && c'.log.fetched + c'.fifoRecv == c.log.fetched + c.fifoRecv
      && |c'.log.fetched| == |c.log.fetched| + (if c.state == Up && c.fifoRecv != [] then 1 else 0)
  {
    if c.fifoRecv != [] {
      assert c.fifoRecv == [c.fifoRecv[0]] + c.fifoRecv[1..];
    }
  }

  // ----- what the queues take -----

  /**
    A flush sends exactly if something is queued and the retransmission queue has room, whatever the
    state is: one data PDU with the oldest messages, and with all of them unless the packet is full or
    the room used up.
   */
  lemma FlushSends(c: Conn, now: nat)
    ensures
      var c' := LocalStep(c, FlushTimer, now);
      if c.fifoSend == [] || |c.fifoRetr| >= c.cfg.retrQueueSize then c' == c
      else
        && |c'.log.sent| == |c.log.sent| + 1 && c.log.sent <= c'.log.sent
        && var q := c'.log.sent[|c.log.sent|];
        && q.kind == Data && q.sn == c.snT && c'.snT == c.snT + 1
        && c'.fifoRetr == c.fifoRetr + [q] && c'.log.batches == c.log.batches + [q.batch]
        && q.batch + c'.fifoSend == c.fifoSend
        && |q.batch| <= c.cfg.maxPacket && |c.fifoRetr| + |q.batch| <= c.cfg.retrQueueSize
        && (c'.fifoSend == [] || |q.batch| == c.cfg.maxPacket || |c.fifoRetr| + |q.batch| == c.cfg.retrQueueSize)
  {
  }

  lemma RemovalDropsConfirmed(c: Conn, now: nat)
    requires forall k, l :: 0 <= k < l < |c.fifoRetr| ==> c.fifoRetr[k].sn < c.fifoRetr[l].sn
    requires c.csR < c.snT
    ensures
      var c' := RemoveConfirmed(c, now);
      forall k :: 0 <= k < |c'.fifoRetr| ==> c'.fifoRetr[k].sn > c.csR
  {
    Runs.PopConfirmedDropsConfirmed(c.fifoRetr, c.csR);
  }

  /** A PDU whose confirmed number and timestamp are recorded while Up leaves nothing queued up to that number. */
  lemma ConfirmedAreDropped(c: Conn, p: Packet, env: Env)
    requires forall k, l :: 0 <= k < l < |c.fifoRetr| ==> c.fifoRetr[k].sn < c.fifoRetr[l].sn
    requires (p.kind == Data || p.kind == Heartbeat) && RowOf(c, p, env.versionOk).dates
    ensures
      var c' := Receive(c, p, env);
      forall k :: 0 <= k < |c'.fifoRetr| ==> c'.fifoRetr[k].sn > p.cs
  {
    hide RemoveConfirmed, Close;
    PlausibleIsAdmitted(c, p);
    if p.kind == Data {
      RemovalDropsConfirmed(UpdateConfirmed(UpdateConnection(AddAppMessages(c, p), p), p), env.now);
    } else {
      RemovalDropsConfirmed(UpdateConfirmed(UpdateConnection(c, p), p), env.now);
    }
  }

  /** A removal is followed by a flush exactly if the send queue is full. */
  lemma RemovalFlushesExactlyWhen(c: Conn, now: nat)
    ensures
      var popped := c.(fifoRetr := PopConfirmed(c.fifoRetr, c.csR));
      RemoveConfirmed(c, now) ==
      if |c.fifoSend| == 2 * c.cfg.maxPacket then LocalStep(popped, FlushTimer, now) else popped
  {
    hide DataSend, PopConfirmed;
  }

  /** One message: flushed for if the queue is full, and refused only if that made no room. */
  lemma PushOrRefuse(c: Conn, now: nat)
    ensures
      var c' := if SendQueueFull(c) then DataSend(c, now) else c;
      && c'.cfg == c.cfg && c'.log.submitted == c.log.submitted
      && (SendQueueFull(c') ==>
            |c'.fifoSend| == 2 * c.cfg.maxPacket && (c.cfg.maxPacket == 0 || |c'.fifoRetr| >= c.cfg.retrQueueSize))
  {
  }

  /** How many messages are queued: the others are refused, which takes two full queues. */
  lemma {:induction false} RefusedOnlyWhenFull(c: Conn, ms: seq<Message>, now: nat) returns (k: nat)
    ensures
      var c' := Enqueue(c, ms, now);
      && c'.cfg == c.cfg && k <= |ms| && c'.log.submitted == c.log.submitted + ms[..k]
      && (k < |ms| ==> |c'.fifoSend| == 2 * c.cfg.maxPacket)
      && (k < |ms| ==> c.cfg.maxPacket == 0 || |c'.fifoRetr| >= c.cfg.retrQueueSize)
    decreases |ms|
  {
    hide DataSend, SendQueueFull;
    if ms == [] {
      k := 0;
    } else {
      PushOrRefuse(c, now);
      var c' := if SendQueueFull(c) then DataSend(c, now) else c;
      if SendQueueFull(c') {
        k := 0;
      } else {
        var k' := RefusedOnlyWhenFull(Pushed(c', [ms[0]]), ms[1..], now);
        k := k' + 1;
        assert Enqueue(c, ms, now) == Enqueue(Pushed(c', [ms[0]]), ms[1..], now);
        hide Enqueue;
        assert ms[..k] == [ms[0]] + ms[1..][..k'];
      }
    }
  }

  /** One message into a queue with room. */
  lemma EnqueueNext(c: Conn, ms: seq<Message>, now: nat)
    requires ms != [] && |c.fifoSend| < 2 * c.cfg.maxPacket
    ensures Enqueue(c, ms, now) == Enqueue(Pushed(c, [ms[0]]), ms[1..], now)
  {
    hide DataSend;
  }

  function Pushed(c: Conn, ms: seq<Message>): Conn {
    c.(fifoSend := c.fifoSend + ms, log := c.log.(submitted := c.log.submitted + ms))
  }

  lemma PushedTwice(c: Conn, ms: seq<Message>)
    requires ms != []
    ensures Pushed(Pushed(c, [ms[0]]), ms[1..]) == Pushed(c, ms)
  {
    assert ms == [ms[0]] + ms[1..];
    assert c.fifoSend + [ms[0]] + ms[1..] == c.fifoSend + ms;
    assert c.log.submitted + [ms[0]] + ms[1..] == c.log.submitted + ms;
  }

  /** Messages that fit into the send queue are queued, and nothing is sent for them. */
  lemma {:induction false} QueuedWithoutSending(c: Conn, ms: seq<Message>, now: nat)
    requires |c.fifoSend| + |ms| <= 2 * c.cfg.maxPacket
    ensures
      Enqueue(c, ms, now) ==
      c.(fifoSend := c.fifoSend + ms, log := c.log.(submitted := c.log.submitted + ms))
    decreases |ms|
  {
    if ms == [] {
      assert c.fifoSend + ms == c.fifoSend && c.log.submitted + ms == c.log.submitted;
    } else {
      hide Enqueue;
      EnqueueNext(c, ms, now);
      QueuedWithoutSending(Pushed(c, [ms[0]]), ms[1..], now);
      PushedTwice(c, ms);
    }
  }

  /**
    sr_send, in every state: too many messages at once change nothing; otherwise an established
    connection queues the first k of them, all if both queues leave room, and no other state queues any.
   */
  lemma SubmitsExactly(c: Conn, ms: seq<Message>, now: nat) returns (k: nat)
    ensures
      var c' := LocalStep(c, AppSends(ms), now);
      && k <= |ms| && c'.log.submitted == c.log.submitted + ms[..k]
      && (c.state != Up ==> k == 0 && c'.fifoSend == c.fifoSend)
      && (c.state == Up && |ms| > c.cfg.maxPacket ==> k == 0 && c' == c)
      && (c.state == Up && |ms| <= c.cfg.maxPacket && |c.fifoSend| + |ms| <= 2 * c.cfg.maxPacket ==>
            k == |ms| && c'.log.sent == c.log.sent && c'.fifoSend == c.fifoSend + ms)
      && (c.state == Up && k < |ms| <= c.cfg.maxPacket ==>
            |c'.fifoSend| == 2 * c.cfg.maxPacket && |c'.fifoRetr| >= c.cfg.retrQueueSize)
  {
    hide Enqueue;
    if c.state == Up && |ms| <= c.cfg.maxPacket {
      k := RefusedOnlyWhenFull(c, ms, now);
      if |c.fifoSend| + |ms| <= 2 * c.cfg.maxPacket {
        QueuedWithoutSending(c, ms, now);
        k := |ms|;
        assert ms[..k] == ms;
      }
    } else {
      k := 0;
      assert c.log.submitted + ms[..0] == c.log.submitted;
    }
  }
}

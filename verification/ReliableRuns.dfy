/**
  The same two endpoints over channels that lose nothing.  From the connection request on, no run
  ever leaves the states Closed, Start and Up, and what is buffered is an exact prefix of what was sent.
 */
module ReliableRuns {
  import opened Packets
  import opened SafetyLayer
  import opened Runs
  import opened LossyRuns
  import Moves

  predicate Lossless(st: Step) {
    st != ALoses && st != BLoses
  }

  ghost predicate IsReliableRun(run: seq<Net>, steps: seq<Step>) {
    IsRun(run, steps) && forall k :: 0 <= k < |steps| ==> Lossless(steps[k])
  }

  // ----- the invariant -----

  /** The part of a connection on which the invariant depends. */
  datatype Party = Party(
    sent: seq<Packet>, batches: seq<seq<Message>>, accepted: seq<Packet>,
    snT: nat, snR: nat, csT: nat, csR: nat, engaged: bool, me: nat, peer: nat)

  /** Connected, or a server that waits for the heartbeat completing the handshake. */
  predicate Engaged(c: Conn) {
    c.state == Up || (c.state == Start && c.role == Server)
  }

  function PartyOf(c: Conn): Party {
    Party(c.log.sent, c.log.batches, c.log.accepted,
          c.snT, c.snR, c.csT, c.csR, Engaged(c), c.cfg.myId, c.cfg.remoteId)
  }

  /** The sequence number a receiver must expect after m PDUs. */
  function NextSn(s: Party, m: nat): nat {
    if m < |s.sent| then s.sent[m].sn else s.snT
  }

  /** The number of batches among the first m PDUs. */
  function NextOrigin(s: Party, m: nat): nat {
    if m < |s.sent| then s.sent[m].origin else |s.batches|
  }

  predicate PduOk(s: Party, p: Packet) {
    && !p.kind.RetrReq? && !p.kind.RetrResp? && !p.kind.RetrData? && !p.kind.Unknown?
    && p.intact && p.sender == s.me && p.receiver == s.peer
    && p.sn <= s.snT && (p.kind.DiscReq? || p.sn < s.snT)
    && p.cs <= s.csT && p.origin <= |s.batches|
    && (p.kind.Data? ==> Genuine(s.batches, p))
  }

  /** A party's PDUs are numbered without gaps and confirm ever higher numbers. */
  predicate WellNumbered(s: Party) {
    && s.csT <= s.snR
    && (forall m :: 0 <= m < |s.sent| ==> PduOk(s, s.sent[m]))
    && (forall m :: 0 <= m < |s.sent| ==>
          && NextSn(s, m + 1) == s.sent[m].sn + (if s.sent[m].kind.DiscReq? then 0 else 1)
          && NextOrigin(s, m + 1) == s.sent[m].origin + (if s.sent[m].kind.Data? then 1 else 0))
    && (forall m, n :: 0 <= m < n < |s.sent| ==> s.sent[m].cs <= s.sent[n].cs)
  }

  /** An engaged receiver that consumed i PDUs expects exactly the next one. */
  predicate Follows(s: Party, i: nat, r: Party) {
    && i <= |s.sent|
    && (r.engaged ==>
          && r.peer == s.me && r.me == s.peer
          && r.snR == NextSn(s, i) && |r.accepted| == NextOrigin(s, i)
          && r.csR <= s.csT < r.snT
          && (forall m :: i <= m < |s.sent| ==> r.csR <= s.sent[m].cs))
  }

  predicate ExactPrefix(accepted: seq<Packet>, batches: seq<seq<Message>>) {
    Payloads(accepted) <= batches
  }

  predicate Pair(x: Party, i: nat, y: Party, j: nat) {
    && WellNumbered(x) && WellNumbered(y)
    && Follows(x, i, y) && Follows(y, j, x)
    && ExactPrefix(x.accepted, y.batches) && ExactPrefix(y.accepted, x.batches)
  }

  lemma PairSwap(x: Party, i: nat, y: Party, j: nat)
    requires Pair(x, i, y, j)
    ensures Pair(y, j, x, i)
  {
  }

  // ----- what a party may do -----

  /** x' is x after it sent p, with a new batch if p is a data PDU. */
  predicate Emits(x: Party, p: Packet, x': Party) {
    && (p.kind.Heartbeat? || p.kind.DiscReq? || p.kind.Data?)
    && p.intact && p.sender == x.me && p.receiver == x.peer
    && p.sn == x.snT && p.cs == x.csT && p.origin == |x.batches|
    && x' == x.(sent := x.sent + [p], snT := x.snT + (if p.kind.DiscReq? then 0 else 1),
                batches := if p.kind.Data? then x.batches + [p.batch] else x.batches)
  }

  lemma EmitNumbers(x: Party, p: Packet, x': Party)
    requires WellNumbered(x) && Emits(x, p, x')
    ensures WellNumbered(x')
  {
    forall m | 0 <= m < |x'.sent| ensures PduOk(x', x'.sent[m]) && x'.sent[m].cs <= x'.csT {
      if m < |x.sent| {
        assert PduOk(x, x.sent[m]);
      }
    }
  }

  lemma EmitFollows(x: Party, p: Packet, x': Party, i: nat, y: Party)
    requires Emits(x, p, x')
    ensures Follows(x, i, y) ==> Follows(x', i, y)
    ensures Follows(y, i, x) ==> Follows(y, i, x')
  {
  }

  lemma Emit(x: Party, p: Packet, x': Party, i: nat, y: Party, j: nat)
    requires Pair(x, i, y, j) && Emits(x, p, x')
    ensures Pair(x', i, y, j)
  {
    hide WellNumbered, Follows;
    EmitNumbers(x, p, x');
    EmitFollows(x, p, x', i, y);
    EmitFollows(x, p, x', j, y);
  }

  lemma EmitControl(x: Party, p: Packet, i: nat, y: Party, j: nat)
    requires Pair(x, i, y, j)
    requires p.kind.Heartbeat? || p.kind.DiscReq?
    requires p.intact && p.sender == x.me && p.receiver == x.peer
    requires p.sn == x.snT && p.cs == x.csT && p.origin == |x.batches|
    ensures Pair(x.(sent := x.sent + [p], snT := x.snT + (if p.kind.DiscReq? then 0 else 1)), i, y, j)
  {
    hide Pair;
    Emit(x, p, x.(sent := x.sent + [p], snT := x.snT + (if p.kind.DiscReq? then 0 else 1)), i, y, j);
  }

  lemma EmitData(x: Party, p: Packet, i: nat, y: Party, j: nat)
    requires Pair(x, i, y, j)
    requires p.kind.Data? && p.intact && p.sender == x.me && p.receiver == x.peer
    requires p.sn == x.snT && p.cs == x.csT && p.origin == |x.batches|
    ensures Pair(x.(sent := x.sent + [p], snT := x.snT + 1, batches := x.batches + [p.batch]), i, y, j)
  {
    hide Pair;
    Emit(x, p, x.(sent := x.sent + [p], snT := x.snT + 1, batches := x.batches + [p.batch]), i, y, j);
  }

  /** Consuming the next PDU without buffering it. */
  lemma Advance(x: Party, i: nat, y: Party, j: nat)
    requires Pair(x, i, y, j) && x.engaged && j < |y.sent|
    requires !y.sent[j].kind.Data? && !y.sent[j].kind.DiscReq?
    ensures Pair(x.(snR := y.sent[j].sn + 1, csT := y.sent[j].sn, csR := y.sent[j].cs), i, y, j + 1)
  {
  }

  /** Recording a later number leaves a party's own PDUs in order. */
  lemma RecordsLater(x: Party, x': Party)
    requires WellNumbered(x) && x.csT <= x'.csT <= x'.snR
    requires x'.(snR := x.snR, csT := x.csT, csR := x.csR, accepted := x.accepted) == x
    ensures WellNumbered(x')
  {
  }

  lemma NextOf(y: Party, j: nat)
    requires WellNumbered(y) && j < |y.sent| && y.sent[j].kind.Data?
    ensures NextSn(y, j + 1) == y.sent[j].sn + 1 && NextOrigin(y, j + 1) == y.sent[j].origin + 1
    ensures Genuine(y.batches, y.sent[j]) && y.sent[j].cs <= y.csT && y.sent[j].sn < y.snT
    ensures forall m :: j < m < |y.sent| ==> y.sent[j].cs <= y.sent[m].cs
  {
  }

  lemma Accept(x: Party, i: nat, y: Party, j: nat)
    requires Pair(x, i, y, j) && x.engaged && j < |y.sent| && y.sent[j].kind.Data?
    ensures Pair(x.(snR := y.sent[j].sn + 1, csT := y.sent[j].sn, csR := y.sent[j].cs,
                 accepted := x.accepted + [y.sent[j]]), i, y, j + 1)
  {
    hide ExactPrefix, WellNumbered;
    var p := y.sent[j];
    var x' := x.(snR := p.sn + 1, csT := p.sn, csR := p.cs, accepted := x.accepted + [p]);
    NextOf(y, j);
    NumbersFit(x);
    RecordsLater(x, x');
    PrefixGrows(x.accepted, y.batches, p);
  }

  lemma NumbersFit(x: Party)
    requires WellNumbered(x)
    ensures x.csT <= x.snR
  {
  }

  lemma PrefixGrows(accepted: seq<Packet>, batches: seq<seq<Message>>, p: Packet)
    requires ExactPrefix(accepted, batches) && Genuine(batches, p) && p.origin == |accepted|
    ensures ExactPrefix(accepted + [p], batches)
  {
    assert Payloads(accepted + [p]) == Payloads(accepted) + [p.batch];
  }

  /** A party that is not, or no longer, engaged may consume anything. */
  lemma Ignore(x: Party, i: nat, y: Party, j: nat)
    requires Pair(x, i, y, j) && j < |y.sent|
    ensures Pair(x.(engaged := false), i, y, j + 1)
    ensures y.sent[j].kind.DiscReq? ==> Pair(x, i, y, j + 1)
  {
  }

  // ----- the operations of a connection, in these terms -----

  lemma Disengage(x: Party, i: nat, y: Party, j: nat)
    requires Pair(x, i, y, j)
    ensures Pair(x.(engaged := false), i, y, j)
  {
  }

  lemma CloseKeeps(c: Conn, now: nat, i: nat, y: Party, j: nat)
    requires Pair(PartyOf(c).(engaged := false), i, y, j)
    ensures Pair(PartyOf(Close(c, now)), i, y, j)
  {
    hide Pair;
    EmitControl(PartyOf(c).(engaged := false), Control(Reset(c), DiscReq, now), i, y, j);
  }

  lemma DataSendKeeps(c: Conn, now: nat, i: nat, y: Party, j: nat)
    requires Pair(PartyOf(c), i, y, j)
    ensures Pair(PartyOf(DataSend(c, now)), i, y, j)
  {
    hide Pair;
    EmitData(PartyOf(c), DataPdu(c, now), i, y, j);
  }

  lemma RemoveConfirmedKeeps(c: Conn, now: nat, i: nat, y: Party, j: nat)
    requires Pair(PartyOf(c), i, y, j)
    ensures Pair(PartyOf(RemoveConfirmed(c, now)), i, y, j)
  {
    hide Pair;
    DataSendKeeps(c.(fifoRetr := PopConfirmed(c.fifoRetr, c.csR)), now, i, y, j);
  }

  lemma {:induction false} EnqueueKeeps(c: Conn, ms: seq<Message>, now: nat, i: nat, y: Party, j: nat)
    requires Pair(PartyOf(c), i, y, j)
    ensures Pair(PartyOf(Enqueue(c, ms, now)), i, y, j)
    decreases |ms|
  {
    hide Pair;
    if ms != [] {
      DataSendKeeps(c, now, i, y, j);
      var c' := if SendQueueFull(c) then DataSend(c, now) else c;
      if !SendQueueFull(c') {
        EnqueueKeeps(c'.(fifoSend := c'.fifoSend + [ms[0]],
                     log := c'.log.(submitted := c'.log.submitted + [ms[0]])), ms[1..], now, i, y, j);
      }
    }
  }

  /** A PDU that is next in sequence passes every check. */
  lemma NextPduIsValid(c: Conn, i: nat, y: Party, j: nat)
    requires Pair(PartyOf(c), i, y, j) && Engaged(c) && j < |y.sent|
    ensures
      var p := y.sent[j];
      && !p.kind.RetrReq? && !p.kind.RetrResp? && !p.kind.RetrData? && !p.kind.Unknown?
      && p.intact && Authentic(c, p) && p.sn == c.snR && c.csR <= p.cs < c.snT
  {
  }

  lemma HeartbeatKeeps(c: Conn, now: nat, i: nat, y: Party, j: nat)
    requires Pair(PartyOf(c), i, y, j) && Engaged(c) && j < |y.sent| && y.sent[j].kind == Heartbeat
    ensures Pair(PartyOf(HandleHeartbeat(c, y.sent[j], now)), i, y, j + 1)
  {
    hide Pair, RemoveConfirmed;
    var p := y.sent[j];
    NextPduIsValid(c, i, y, j);
    Advance(PartyOf(c), i, y, j);
    Ignore(PartyOf(c), i, y, j);
    CloseKeeps(c, now, i, y, j + 1);
    RemoveConfirmedKeeps(UpdateConfirmed(UpdateConnection(c, p), p), now, i, y, j + 1);
    RemoveConfirmedQuiet(UpdateConfirmed(UpdateConnection(c, p), p), now);
  }

  lemma DataKeeps(c: Conn, now: nat, i: nat, y: Party, j: nat)
    requires Pair(PartyOf(c), i, y, j) && Engaged(c) && j < |y.sent| && y.sent[j].kind == Data
    ensures Pair(PartyOf(HandleData(c, y.sent[j], now)), i, y, j + 1)
  {
    hide Pair, RemoveConfirmed;
    var p := y.sent[j];
    NextPduIsValid(c, i, y, j);
    Accept(PartyOf(c), i, y, j);
    Ignore(PartyOf(c), i, y, j);
    CloseKeeps(c, now, i, y, j + 1);
    CloseKeeps(c.(errors := c.errors.(cs := c.errors.cs + 1)), now, i, y, j + 1);
    RemoveConfirmedKeeps(UpdateConfirmed(UpdateConnection(AddAppMessages(c, p), p), p), now, i, y, j + 1);
    RemoveConfirmedQuiet(UpdateConfirmed(UpdateConnection(AddAppMessages(c, p), p), p), now);
  }

  /** No retransmission state, and a role that fits. */
  predicate Ordinary(c: Conn) {
    c.state == Closed || c.state == Start || c.state == Up
  }

  lemma EngagedReceives(c: Conn, env: Env, i: nat, y: Party, j: nat)
    requires Pair(PartyOf(c), i, y, j) && Engaged(c) && j < |y.sent|
    ensures Pair(PartyOf(Receive(c, y.sent[j], env)), i, y, j + 1)
  {
    hide Pair, HandleHeartbeat, HandleData;
    var p := y.sent[j];
    NextPduIsValid(c, i, y, j);
    Ignore(PartyOf(c), i, y, j);
    match p.kind {
      case Heartbeat => HeartbeatKeeps(c, env.now, i, y, j);
      case Data => DataKeeps(c, env.now, i, y, j);
      case ConnReq => CloseKeeps(c, env.now, i, y, j + 1);
      case ConnResp => CloseKeeps(c, env.now, i, y, j + 1);
      case DiscReq =>
    }
  }

  lemma LocalKeeps(c: Conn, e: Local, now: nat, i: nat, y: Party, j: nat)
    requires Pair(PartyOf(c), i, y, j) && Ordinary(c)
    ensures Pair(PartyOf(LocalStep(c, e, now)), i, y, j)
  {
    hide Pair, DataSend, Enqueue;
    Disengage(PartyOf(c), i, y, j);
    CloseKeeps(c, now, i, y, j);
    match e {
      case AppSends(ms) =>
        EnqueueKeeps(c, ms, now, i, y, j);
        EnqueueQuiet(c, ms, now);
        EmitControl(PartyOf(c).(engaged := false), Control(c, DiscReq, now), i, y, j);
      case FlushTimer =>
        DataSendKeeps(c, now, i, y, j);
      case HeartbeatTimer =>
        EmitControl(PartyOf(c), Control(c, Heartbeat, now), i, y, j);
      case _ =>
    }
  }

  // ----- states and roles over one step -----

  /** What an engaged endpoint can become by receiving an ordinary PDU. */
  lemma EngagedStates(c: Conn, p: Packet, env: Env)
    requires Engaged(c)
    requires !p.kind.RetrReq? && !p.kind.RetrResp? && !p.kind.RetrData? && p.sn == c.snR
    ensures
      var c' := Receive(c, p, env);
      c'.role == c.role && (c'.state == Closed || c'.state == Up || c'.state == c.state)
  {
    hide RemoveConfirmed;
    var now := env.now;
    RemoveConfirmedQuiet(UpdateConfirmed(UpdateConnection(AddAppMessages(c, p), p), p), now);
    RemoveConfirmedQuiet(UpdateConfirmed(UpdateConnection(c, p), p), now);
    RemoveConfirmedRole(UpdateConfirmed(UpdateConnection(AddAppMessages(c, p), p), p), now);
    RemoveConfirmedRole(UpdateConfirmed(UpdateConnection(c, p), p), now);
  }

  lemma RemoveConfirmedRole(c: Conn, now: nat)
    ensures RemoveConfirmed(c, now).role == c.role
  {
  }

  /** A closed endpoint stays as it is. */
  lemma ClosedReceives(c: Conn, p: Packet, env: Env)
    requires c.state == Closed && !p.kind.ConnReq? && !p.kind.RetrReq? && !p.kind.RetrResp?
    ensures
      var c' := Receive(c, p, env);
      && c'.state == Closed && c'.role == c.role && PartyOf(c') == PartyOf(c)
      && c'.fifoSend == c.fifoSend && c'.log == c.log
  {
  }

  lemma {:induction false} EnqueueRole(c: Conn, ms: seq<Message>, now: nat)
    ensures Enqueue(c, ms, now).role == c.role && Enqueue(c, ms, now).state == c.state
    decreases |ms|
  {
    if ms != [] {
      var c' := if SendQueueFull(c) then DataSend(c, now) else c;
      if !SendQueueFull(c') {
        EnqueueRole(c'.(fifoSend := c'.fifoSend + [ms[0]],
                    log := c'.log.(submitted := c'.log.submitted + [ms[0]])), ms[1..], now);
      }
    }
  }

  lemma LocalStates(c: Conn, e: Local, now: nat)
    requires Ordinary(c)
    ensures
      var c' := LocalStep(c, e, now);
      c'.role == c.role && (c'.state == c.state || c'.state == Closed)
  {
    if e.AppSends? {
      EnqueueRole(c, e.messages, now);
    }
  }

  // ----- the handshake -----

  /** The server has not seen the connection request, and the client has sent nothing of weight. */
  predicate Untouched(n: Net) {
    && n.b.state == Closed && n.b.log == EMPTY_LOG && n.b.fifoSend == [] && n.atA == 0
    && (n.a.state == Start || n.a.state == Closed)
    && n.a.fifoSend == [] && n.a.csT == 0 && n.a.log.batches == []
  }

  /** The client waits for its connection response; the server can only answer or give up. */
  predicate Calling(n: Net) {
    && n.atA == 0 && |n.a.log.sent| == 1 && n.a.log.accepted == [] && n.a.csT == 0
    && n.a.fifoSend == [] && n.a.log.batches == []
    && n.b.state != Up && n.b.fifoSend == [] && n.b.log.batches == []
    && (n.b.state == Start ==> n.b.log.sent != [])
    && (forall m :: 0 <= m < |n.b.log.sent| ==>
          && n.b.log.sent[m].cs == n.b.csT
          && n.b.log.sent[m].kind == if m == 0 then ConnResp else DiscReq)
  }

  predicate NetInv(n: Net) {
    && Pair(PartyOf(n.a), n.atB, PartyOf(n.b), n.atA)
    && Ordinary(n.a) && Ordinary(n.b)
    && n.a.role == Client && (n.b.state == Start ==> n.b.role == Server)
    && n.a.log.sent != [] && n.a.log.sent[0].kind == ConnReq
    && NonePending(n.a.log.sent, 1, ConnReq) && NonePending(n.b.log.sent, 0, ConnReq)
    && (n.atB == 0 ==> Untouched(n))
    && (n.a.state == Start ==> Calling(n))
  }

  lemma InitNetInv(n: Net)
    requires Init(n)
    ensures NetInv(n)
  {
  }

  /** What the server makes of the first connection request. */
  lemma AnswerToRequest(b: Conn, p: Packet, env: Env)
    requires b.state == Closed && b.log == EMPTY_LOG && b.fifoSend == [] && p.kind == ConnReq
    ensures
      var b' := Receive(b, p, env);
      && b'.cfg == b.cfg && b'.fifoSend == [] && b'.role == Server
      && (if b'.state == Start then
            && b'.snR == p.sn + 1 && b'.csT == p.sn && b'.csR == 0 && b'.snT == b.cfg.initialSn + 1
            && Authentic(b, p)
            && b'.log == EMPTY_LOG.(sent := [Control(b', ConnResp, env.now).(sn := b.cfg.initialSn, cts := b'.ctsR)])
          else
            && b'.state == Closed && b'.log == EMPTY_LOG && b'.snT == b.cfg.initialSn
            && b'.snR == b.snR && b'.csT == b.csT && b'.csR == b.csR)
  {
  }

  /** The server engages with the client, or stays as it is apart from its number. */
  lemma AnswerPair(x: Party, y: Party, y': Party)
    requires Pair(x, 0, y, 0) && !x.engaged && x.sent != [] && x.sent[0].kind == ConnReq && x.csT == 0 && x.batches == []
    requires y.sent == [] && y.batches == [] && y.accepted == []
    requires y'.me == y.me && y'.peer == y.peer && y'.batches == [] && y'.accepted == []
    requires
      if y'.engaged then
        && y'.snR == x.sent[0].sn + 1 && y'.csT == x.sent[0].sn && y'.csR == 0
        && x.me == y.peer && x.peer == y.me
        && |y'.sent| == 1 && PduOk(y', y'.sent[0]) && y'.sent[0].kind == ConnResp
        && y'.snT == y'.sent[0].sn + 1 && y'.sent[0].origin == 0
      else
        y'.sent == [] && y'.csT <= y'.snR
    ensures Pair(x, 1, y', 0)
  {
    assert x.sent[0].origin == 0;
    assert Payloads(y'.accepted) == [] && Payloads(x.accepted) == [];
    hide ExactPrefix;
  }

  lemma ServerAnswers(n: Net, env: Env)
    requires NetInv(n) && n.atB == 0
    ensures NetInv(Next(n, BReceives(env)))
  {
    hide Receive, Pair;
    var p := n.a.log.sent[0];
    AnswerToRequest(n.b, p, env);
    FirstPduOk(PartyOf(n.b), 0, PartyOf(n.a), 0);
    AnswerPair(PartyOf(n.a), PartyOf(n.b), PartyOf(Receive(n.b, p, env)));
  }

  /** The connection response makes the client expect what follows it. */
  lemma Engage(x: Party, i: nat, y: Party)
    requires Pair(x, i, y, 0) && x.accepted == [] && x.csT == 0 && y.batches == []
    requires y.sent != [] && y.sent[0].kind == ConnResp && y.sent[0].cs == x.snT - 1
    requires y.me == x.peer && y.peer == x.me
    requires forall m :: 0 <= m < |y.sent| ==> y.sent[m].cs == y.csT
    ensures Pair(x.(snR := y.sent[0].sn + 1, csT := y.sent[0].sn, csR := y.sent[0].cs, engaged := true), i, y, 1)
  {
  }

  /** The client is engaged, with a heartbeat sent, or closed. */
  lemma ResponsePair(a: Conn, i: nat, y: Party, env: Env)
    requires Pair(PartyOf(a), i, y, 0) && a.state == Start && a.role == Client && y.sent != []
    requires a.log.accepted == [] && a.csT == 0 && y.batches == []
    requires y.sent[0].kind == ConnResp && forall m :: 0 <= m < |y.sent| ==> y.sent[m].cs == y.csT
    ensures Pair(PartyOf(Receive(a, y.sent[0], env)), i, y, 1)
  {
    hide Pair;
    var p := y.sent[0];
    FirstPduOk(PartyOf(a), i, y, 0);
    Ignore(PartyOf(a), i, y, 0);
    CloseKeeps(a, env.now, i, y, 1);
    if CheckPacket(a, p) && env.versionOk {
      Engage(PartyOf(a), i, y);
      var c1 := UpdateConnection(a, p).(csR := p.cs, state := Up);
      EmitControl(PartyOf(c1), Control(c1, Heartbeat, env.now), i, y, 1);
    }
  }

  /** The response leads the client to Up or Closed. */
  lemma ResponseStates(a: Conn, p: Packet, env: Env)
    requires a.state == Start && a.role == Client && p.kind == ConnResp
    ensures
      var a' := Receive(a, p, env);
      && (a'.state == Up || a'.state == Closed) && a'.role == Client && a.log.sent <= a'.log.sent
      && (forall m :: |a.log.sent| <= m < |a'.log.sent| ==> a'.log.sent[m].kind != ConnReq)
  {
    hide CheckPacket;
  }

  lemma ClientAnswered(n: Net, env: Env)
    requires NetInv(n) && n.a.state == Start && n.atA < |n.b.log.sent|
    ensures NetInv(Next(n, AReceives(env)))
  {
    hide Pair, Receive;
    ResponsePair(n.a, n.atB, PartyOf(n.b), env);
    ResponseStates(n.a, n.b.log.sent[0], env);
  }

  lemma FirstPduOk(x: Party, i: nat, y: Party, j: nat)
    requires (Pair(x, i, y, j) || Pair(y, j, x, i)) && y.sent != []
    ensures y.sent[0].sender == y.me && y.sent[0].receiver == y.peer && x.csT <= x.snR
  {
  }

  lemma ClientActs(n: Net, e: Local, now: nat)
    requires NetInv(n)
    ensures NetInv(n.(a := LocalStep(n.a, e, now)))
  {
    hide Pair, LocalStep;
    LocalKeeps(n.a, e, now, n.atB, PartyOf(n.b), n.atA);
    LocalStates(n.a, e, now);
    Moves.LocalNoConnReq(n.a, e, now);
    if n.a.fifoSend == [] && n.a.state != Up {
      SilentLocal(n.a, e, now);
    }
  }

  lemma ServerActs(n: Net, e: Local, now: nat)
    requires NetInv(n)
    ensures NetInv(n.(b := LocalStep(n.b, e, now)))
  {
    hide Pair, LocalStep;
    PairSwap(PartyOf(n.a), n.atB, PartyOf(n.b), n.atA);
    LocalKeeps(n.b, e, now, n.atA, PartyOf(n.a), n.atB);
    PairSwap(PartyOf(LocalStep(n.b, e, now)), n.atA, PartyOf(n.a), n.atB);
    LocalStates(n.b, e, now);
    Moves.LocalNoConnReq(n.b, e, now);
    if n.b.fifoSend == [] && n.b.state != Up {
      SilentLocal(n.b, e, now);
    }
  }

  lemma NextNetInv(n: Net, st: Step)
    requires NetInv(n) && Enabled(n, st) && Lossless(st)
    ensures NetInv(Next(n, st))
  {
    hide Pair, Receive, LocalStep;
    match st {
      case AReceives(env) =>
        if n.a.state == Start {
          ClientAnswered(n, env);
        } else {
          EndpointReceives(n.a, env, n.atB, n.b, n.atA);
        }
      case BReceives(env) =>
        if n.atB == 0 {
          ServerAnswers(n, env);
        } else {
          PairSwap(PartyOf(n.a), n.atB, PartyOf(n.b), n.atA);
          EndpointReceives(n.b, env, n.atA, n.a, n.atB);
          PairSwap(PartyOf(Next(n, st).b), n.atA, PartyOf(n.a), n.atB + 1);
        }
      case ALocal(e, now) => ClientActs(n, e, now);
      case BLocal(e, now) => ServerActs(n, e, now);
    }
  }

  lemma EndpointReceives(c: Conn, env: Env, i: nat, d: Conn, j: nat)
    requires Pair(PartyOf(c), i, PartyOf(d), j) && j < |d.log.sent| && d.log.sent[j].kind != ConnReq
    requires Engaged(c) || c.state == Closed
    ensures
      var c' := Receive(c, d.log.sent[j], env);
      && Pair(PartyOf(c'), i, PartyOf(d), j + 1) && Moves.NoNewConnReq(c, c')
      && c'.role == c.role && (c'.state == Closed || c'.state == Up || c'.state == c.state)
      && (c.state == Closed ==> c'.state == Closed && c'.log == c.log && c'.fifoSend == c.fifoSend && c'.csT == c.csT)
  {
    hide Pair, Receive;
    var p := d.log.sent[j];
    Moves.ReceiveNoConnReq(c, p, env);
    OrdinaryPdu(PartyOf(c), i, PartyOf(d), j);
    if Engaged(c) {
      NextPduIsValid(c, i, PartyOf(d), j);
      EngagedReceives(c, env, i, PartyOf(d), j);
      EngagedStates(c, p, env);
    } else {
      ClosedReceives(c, p, env);
      Ignore(PartyOf(c), i, PartyOf(d), j);
    }
  }

  lemma OrdinaryPdu(x: Party, i: nat, y: Party, j: nat)
    requires Pair(x, i, y, j) && j < |y.sent|
    ensures !y.sent[j].kind.RetrReq? && !y.sent[j].kind.RetrResp? && !y.sent[j].kind.RetrData?
  {
  }

  // ----- the theorems -----

  lemma {:induction false} ReliableRunInv(run: seq<Net>, steps: seq<Step>, k: nat)
    requires IsReliableRun(run, steps) && k < |run|
    ensures NetInv(run[k])
  {
    if k == 0 {
      InitNetInv(run[0]);
    } else {
      ReliableRunInv(run, steps, k - 1);
      NextNetInv(run[k - 1], steps[k - 1]);
    }
  }

  /** Over channels that lose nothing no endpoint ever asks for a retransmission or answers one. */
  lemma NeverRetransmits(run: seq<Net>, steps: seq<Step>, k: nat)
    requires IsReliableRun(run, steps) && k < |run|
    ensures Ordinary(run[k].a) && Ordinary(run[k].b)
    ensures forall m :: 0 <= m < |run[k].a.log.sent| ==> !Retransmission(run[k].a.log.sent[m])
    ensures forall m :: 0 <= m < |run[k].b.log.sent| ==> !Retransmission(run[k].b.log.sent[m])
  {
    ReliableRunInv(run, steps, k);
  }

  predicate Retransmission(p: Packet) {
    p.kind.RetrReq? || p.kind.RetrResp? || p.kind.RetrData?
  }

  /**
    The batches buffered at one end are exactly the first so many batches sent at the other, and all
    of them once a connected endpoint has consumed everything under way.
   */
  lemma BufferedIsExactPrefix(run: seq<Net>, steps: seq<Step>, k: nat)
    requires IsReliableRun(run, steps) && k < |run|
    ensures Payloads(run[k].b.log.accepted) <= run[k].a.log.batches
    ensures Payloads(run[k].a.log.accepted) <= run[k].b.log.batches
    ensures run[k].b.state == Up && run[k].atB == |run[k].a.log.sent| ==>
              Payloads(run[k].b.log.accepted) == run[k].a.log.batches
    ensures run[k].a.state == Up && run[k].atA == |run[k].b.log.sent| ==>
              Payloads(run[k].a.log.accepted) == run[k].b.log.batches
  {
    ReliableRunInv(run, steps, k);
  }
}

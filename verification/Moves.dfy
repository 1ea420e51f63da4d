/**
  What a connection does as a sender and as a receiver, whatever the operation: every operation is a
  series of a few moves of the sender, and a PDU that arrives is ignored, noted or taken.
 */
module Moves {
  import opened Packets
  import opened SafetyLayer
  import opened Runs

  // ----- the sender -----

  datatype Move =
    | Drop(cs: nat)                                             // removes what `cs` confirms
    | Say(p: Packet)                                            // sends a PDU without a batch
    | First(p: Packet)                                          // sends a new batch and queues it
    | Again(resp: Packet, burst: seq<Packet>, last: Packet)     // answers a retransmission request

  function Moved(s: Tx, m: Move): Tx {
    match m
    case Drop(cs) => s.(fifo := PopConfirmed(s.fifo, cs))
    case Say(p) => s.(sent := s.sent + [p], snT := s.snT + if p.kind.DiscReq? then 0 else 1)
    case First(p) => WithData(s, p)
    case Again(resp, b, last) => Replied(s, resp, b, last)
  }

  predicate Spoken(p: Packet) {
    p.kind == Heartbeat || p.kind == DiscReq || p.kind == RetrReq
  }

  /** The PDU takes the next number and counts the batches so far. */
  predicate Fits(s: Tx, p: Packet) {
    p.sn == s.snT && p.origin == |s.batches|
  }

  /** The queued batches in order, under the numbers behind the response. */
  predicate IsBurst(s: Tx, b: seq<Packet>) {
    && |b| == |s.fifo|
    && forall k :: 0 <= k < |b| ==>
         && b[k].kind == RetrData && b[k].sn == s.snT + 1 + k
         && b[k].origin == s.fifo[k].origin && b[k].batch == s.fifo[k].batch
  }

  predicate Possible(s: Tx, m: Move) {
    match m
    case Drop(_) => true
    case Say(p) => Spoken(p) && Fits(s, p)
    case First(p) => p.kind == Data && Fits(s, p)
    case Again(resp, b, last) =>
      && resp.kind == RetrResp && Fits(s, resp) && IsBurst(s, b)
      && last.kind == Heartbeat && last.sn == s.snT + 1 + |b| && last.origin == |s.batches|
  }

  /** Which removals and answers the arrival of p can lead to. */
  predicate Provoked(c: Conn, p: Packet, s: Tx, m: Move) {
    && (m.Drop? ==> Removes(c, p) && m.cs == p.cs && s.fifo == c.fifoRetr && s.batches == c.log.batches)
    && (m.First? ==> s.snT > 0)
    && (m.Again? ==> p.kind == RetrReq && (Sorted(c.fifoRetr) ==> Beyond(s.fifo, p.cs)))
  }

  predicate Sorted(q: seq<Packet>) {
    forall k, l :: 0 <= k < l < |q| ==> q[k].sn < q[l].sn
  }

  predicate Beyond(q: seq<Packet>, cs: nat) {
    forall k :: 0 <= k < |q| ==> q[k].sn > cs
  }

  /** The arrival of p removes confirmed PDUs. */
  predicate Removes(c: Conn, p: Packet) {
    && Admitted(c, p)
    && (p.kind == RetrReq ||
        (SnInSeq(c, p) && CtsInSeq(c, p) &&
         ((p.kind == Data && c.state == Up) || (p.kind == Heartbeat && (c.state == Up || c.state == RetrRunning)))))
  }

  /** A connection that can have queued something has sent something. */
  predicate Ready(c: Conn) {
    c.snT > 0 || (c.fifoSend == [] && (c.state == Closed || c.state == Down))
  }

  /** Every move keeps inv, up to the answer, which establishes fin. */
  ghost predicate Keeps(inv: Tx -> bool, fin: Tx -> bool, c: Conn, p: Packet) {
    && (forall s :: inv(s) ==> fin(s))
    && (forall s, m :: inv(s) && Possible(s, m) && Provoked(c, p, s, m) ==>
          if m.Again? then fin(Moved(s, m)) else inv(Moved(s, m)))
  }

  /** The same of moves that need no arrival; `ready` tells whether numbers were used before batches are sent. */
  ghost predicate KeepsSpeaking(inv: Tx -> bool, ready: bool) {
    forall s, m :: inv(s) && Possible(s, m) && (m.Say? || (m.First? && (ready ==> s.snT > 0))) ==> inv(Moved(s, m))
  }

  lemma SpeakingIsProvoked(inv: Tx -> bool, fin: Tx -> bool, c: Conn, p: Packet)
    requires Keeps(inv, fin, c, p)
    ensures KeepsSpeaking(inv, true)
  {
  }

  lemma DataSendMoves(inv: Tx -> bool, ready: bool, c: Conn, now: nat)
    requires KeepsSpeaking(inv, ready) && inv(TxOf(c)) && (ready ==> Ready(c))
    ensures inv(TxOf(DataSend(c, now))) && (ready ==> Ready(DataSend(c, now)))
  {
    if DataSend(c, now) != c {
      var m := First(DataPdu(c, now));
      assert Possible(TxOf(c), m);
      assert TxOf(DataSend(c, now)) == Moved(TxOf(c), m);
    }
  }

  lemma SayMoves(inv: Tx -> bool, ready: bool, c: Conn, kind: Kind, now: nat)
    requires KeepsSpeaking(inv, ready) && inv(TxOf(c)) && (kind == Heartbeat || kind == RetrReq)
    ensures inv(TxOf(EmitNumbered(c, Control(c, kind, now))))
  {
    var m := Say(Control(c, kind, now));
    assert Possible(TxOf(c), m);
    assert TxOf(EmitNumbered(c, Control(c, kind, now))) == Moved(TxOf(c), m);
  }

  lemma DiscReqMoves(inv: Tx -> bool, ready: bool, c: Conn, now: nat)
    requires KeepsSpeaking(inv, ready) && inv(TxOf(c))
    ensures inv(TxOf(SendDiscReq(c, now))) && inv(TxOf(Close(c, now)))
  {
    var m := Say(Control(c, DiscReq, now));
    assert Possible(TxOf(c), m);
    assert TxOf(SendDiscReq(c, now)) == Moved(TxOf(c), m);
    assert Control(Reset(c), DiscReq, now) == Control(c, DiscReq, now);
  }

  /** `d` is the connection in the middle of handling p, with its retransmission queue as it was. */
  lemma RemoveConfirmedMoves(inv: Tx -> bool, fin: Tx -> bool, c: Conn, p: Packet, d: Conn, now: nat)
    requires Keeps(inv, fin, c, p) && inv(TxOf(d)) && Ready(d)
    requires Removes(c, p) && d.fifoRetr == c.fifoRetr && d.log.batches == c.log.batches && d.csR == p.cs
    ensures inv(TxOf(RemoveConfirmed(d, now)))
  {
    var d' := d.(fifoRetr := PopConfirmed(d.fifoRetr, d.csR));
    assert Possible(TxOf(d), Drop(p.cs));
    assert TxOf(d') == Moved(TxOf(d), Drop(p.cs));
    SpeakingIsProvoked(inv, fin, c, p);
    DataSendMoves(inv, true, d', now);
  }

  /** What is left of a queue in order, and what is sent right behind, lies beyond the confirmed number. */
  lemma RemovalGoesBeyond(c: Conn, p: Packet, d: Conn, now: nat)
    requires Removes(c, p) && p.kind == RetrReq && d.fifoRetr == c.fifoRetr && d.snT >= c.snT && d.csR == p.cs
    requires Sorted(c.fifoRetr)
    ensures Beyond(RemoveConfirmed(d, now).fifoRetr, p.cs)
  {
    PopConfirmedDropsConfirmed(c.fifoRetr, p.cs);
  }

  /** The answer that e gives to a request. */
  function AnswerOf(e: Conn, now: nat): Move {
    var f := SendRetrResp(e, now);
    var b := Burst(f, now);
    Again(Control(e, RetrResp, now), b, Control(f.(snT := f.snT + |b|), Heartbeat, now))
  }

  lemma AnswerMoves(e: Conn, now: nat)
    ensures Possible(TxOf(e), AnswerOf(e, now))
    ensures TxOf(Retransmit(SendRetrResp(e, now), now)) == Moved(TxOf(e), AnswerOf(e, now))
  {
    var f := SendRetrResp(e, now);
    var b := Burst(f, now);
    assert forall k :: 0 <= k < |b| ==> b[k] == Renumbered(f, k, now);
    assert IsBurst(TxOf(e), b);
  }

  lemma RespondMoves(inv: Tx -> bool, fin: Tx -> bool, c: Conn, p: Packet, d: Conn, now: nat)
    requires Keeps(inv, fin, c, p) && inv(TxOf(d)) && Ready(d)
    requires p.kind == RetrReq && Removes(c, p) && d.fifoRetr == c.fifoRetr && d.log.batches == c.log.batches && d.snT >= c.snT
    ensures fin(TxOf(Respond(d, p, now)))
  {
    hide RemoveConfirmed, Removes, Sorted, Beyond, Possible, Moved, Retransmit, SendRetrResp;
    RemoveConfirmedMoves(inv, fin, c, p, d.(csR := p.cs), now);
    if Sorted(c.fifoRetr) {
      RemovalGoesBeyond(c, p, d.(csR := p.cs), now);
    }
    AnswerMoves(RemoveConfirmed(d.(csR := p.cs), now), now);
  }

  lemma RetrReqMoves(inv: Tx -> bool, fin: Tx -> bool, c: Conn, p: Packet, now: nat)
    requires Keeps(inv, fin, c, p) && inv(TxOf(c)) && c.snT > 0 && Admitted(c, p) && p.kind == RetrReq
    ensures fin(TxOf(HandleRetrReq(c, p, now)))
  {
    hide Respond, Keeps, KeepsSpeaking;
    SpeakingIsProvoked(inv, fin, c, p);
    DiscReqMoves(inv, true, c, now);
    var c1 := if c.state == RetrRunning then Close(c, now) else c;
    RespondMoves(inv, fin, c, p, UpdateConnection(c1, p), now);
    RespondMoves(inv, fin, c, p, c, now);
  }

  lemma DataMoves(inv: Tx -> bool, fin: Tx -> bool, c: Conn, p: Packet, now: nat)
    requires Keeps(inv, fin, c, p) && inv(TxOf(c)) && c.snT > 0 && Admitted(c, p) && p.kind == Data
    ensures inv(TxOf(HandleData(c, p, now)))
  {
    hide RemoveConfirmed, Keeps, KeepsSpeaking, Close;
    SpeakingIsProvoked(inv, fin, c, p);
    DiscReqMoves(inv, true, c, now);
    DiscReqMoves(inv, true, c.(errors := c.errors.(cs := c.errors.cs + 1)), now);
    SayMoves(inv, true, c.(errors := c.errors.(sn := c.errors.sn + 1)), RetrReq, now);
    if Removes(c, p) {
      RemoveConfirmedMoves(inv, fin, c, p, UpdateConfirmed(UpdateConnection(AddAppMessages(c, p), p), p), now);
    }
  }

  lemma HeartbeatMoves(inv: Tx -> bool, fin: Tx -> bool, c: Conn, p: Packet, now: nat)
    requires Keeps(inv, fin, c, p) && inv(TxOf(c)) && c.snT > 0 && Admitted(c, p) && p.kind == Heartbeat
    ensures inv(TxOf(HandleHeartbeat(c, p, now)))
  {
    hide RemoveConfirmed, Keeps, KeepsSpeaking;
    SpeakingIsProvoked(inv, fin, c, p);
    DiscReqMoves(inv, true, c, now);
    var c1 := if !SnInSeq(c, p) then Close(c, now) else c;
    DiscReqMoves(inv, true, c1, now);
    var c2 := if c1.role == Client then Close(c1, now) else c1;
    DiscReqMoves(inv, true, c2, now);
    if Removes(c, p) {
      RemoveConfirmedMoves(inv, fin, c, p, UpdateConfirmed(UpdateConnection(c, p), p), now);
    }
  }

  lemma CheckedMoves(inv: Tx -> bool, fin: Tx -> bool, c: Conn, p: Packet, now: nat)
    requires Keeps(inv, fin, c, p) && inv(TxOf(c)) && c.snT > 0 && Admitted(c, p)
    ensures fin(TxOf(HandleChecked(c, p, now)))
  {
    hide HandleData, HandleRetrReq, HandleHeartbeat, KeepsSpeaking;
    SpeakingIsProvoked(inv, fin, c, p);
    match p.kind {
      case RetrReq => RetrReqMoves(inv, fin, c, p, now);
      case Data => DataMoves(inv, fin, c, p, now);
      case Heartbeat => HeartbeatMoves(inv, fin, c, p, now);
      case RetrData => DiscReqMoves(inv, true, c, now); SayMoves(inv, true, c, RetrReq, now);
      case RetrResp => DiscReqMoves(inv, true, c, now);
      case _ =>
    }
  }

  /** What every possible move keeps, the arrival of a PDU keeps. */
  lemma ReceiveMoves(inv: Tx -> bool, fin: Tx -> bool, c: Conn, p: Packet, env: Env)
    requires Keeps(inv, fin, c, p) && inv(TxOf(c)) && p.kind != ConnReq
    ensures fin(TxOf(Receive(c, p, env)))
  {
    hide HandleChecked, KeepsSpeaking;
    SpeakingIsProvoked(inv, fin, c, p);
    DiscReqMoves(inv, true, c, env.now);
    SayMoves(inv, true, UpdateConnection(c, p).(csR := p.cs, state := Up), Heartbeat, env.now);
    if p.kind != ConnResp && Admitted(c, p) {
      CheckedMoves(inv, fin, c, p, env.now);
    }
  }

  lemma {:induction false} EnqueueMoves(inv: Tx -> bool, ready: bool, c: Conn, ms: seq<Message>, now: nat)
    requires KeepsSpeaking(inv, ready) && inv(TxOf(c)) && (ready ==> c.snT > 0)
    ensures inv(TxOf(Enqueue(c, ms, now)))
    decreases |ms|
  {
    hide KeepsSpeaking;
    if ms != [] {
      DataSendMoves(inv, ready, c, now);
      var c' := if SendQueueFull(c) then DataSend(c, now) else c;
      if !SendQueueFull(c') {
        EnqueueMoves(inv, ready, c'.(fifoSend := c'.fifoSend + [ms[0]],
                     log := c'.log.(submitted := c'.log.submitted + [ms[0]])), ms[1..], now);
      }
    }
  }

  /** What every move that needs no arrival keeps, the application and the timers keep. */
  lemma LocalMoves(inv: Tx -> bool, ready: bool, c: Conn, e: Local, now: nat)
    requires KeepsSpeaking(inv, ready) && inv(TxOf(c)) && (ready ==> Ready(c))
    ensures inv(TxOf(LocalStep(c, e, now)))
  {
    hide KeepsSpeaking, DataSend, Enqueue;
    DiscReqMoves(inv, ready, c, now);
    match e {
      case AppSends(ms) =>
        if c.state == Up {
          EnqueueMoves(inv, ready, c, ms, now);
        }
      case FlushTimer => DataSendMoves(inv, ready, c, now);
      case HeartbeatTimer => SayMoves(inv, ready, c, Heartbeat, now);
      case _ =>
    }
  }

  // ----- the receiver -----

  /** The PDU changed nothing of what the receiver expects and buffered. */
  predicate Ignores(r: Rx, r': Rx) {
    && r'.accepted == r.accepted && r'.snR == r.snR && r'.csT == r.csT
    && (r'.state == RetrRunning ==> r.state == RetrRunning)
  }

  /** The occasions on which a PDU counts as received although nothing is buffered. */
  predicate Occasion(r: Rx, p: Packet, r': Rx) {
    match p.kind
    case Heartbeat => (p.sn == r.snR || r.state == Start) && r'.state != RetrRunning
    case RetrReq => p.sn == r.snR && r'.state != RetrRunning
    case Data => p.sn == r.snR && r.state == RetrRunning
    case RetrResp => r.state == RetrRequested && r'.state == RetrRunning && r'.sent == r.sent
    case ConnResp => r.state == Start && r'.state != RetrRunning
    case _ => false
  }

  predicate Notes(r: Rx, p: Packet, r': Rx) {
    r'.accepted == r.accepted && r'.snR == p.sn + 1 && r'.csT == p.sn && Occasion(r, p, r')
  }

  predicate Takes(r: Rx, p: Packet, r': Rx) {
    && r'.accepted == r.accepted + [p] && r'.snR == p.sn + 1 && r'.csT == p.sn
    && Bears(p) && p.sn == r.snR && (r.state == Up || r.state == RetrRunning)
    && (r'.state == RetrRunning ==> p.kind == RetrData)
  }

  /** New PDUs confirm what was confirmed before or is confirmed now. */
  predicate Confirming(r: Rx, r': Rx) {
    && r.sent <= r'.sent
    && forall m :: |r.sent| <= m < |r'.sent| ==> r'.sent[m].cs == r.csT || r'.sent[m].cs == r'.csT
  }

  /** From r to r' no retransmission was asked for. */
  predicate AskedNothing(r: Rx, r': Rx) {
    r.sent <= r'.sent && forall m :: |r.sent| <= m < |r'.sent| ==> r'.sent[m].kind != RetrReq
  }

  /** One who does not wait asks for a retransmission and begins to wait. */
  predicate AsksAndWaits(r: Rx, r': Rx) {
    && !Waiting(r) && Ignores(r, r') && r'.state == RetrRequested
    && |r'.sent| == |r.sent| + 1 && r.sent <= r'.sent
    && r'.sent[|r.sent|].kind == RetrReq && r'.sent[|r.sent|].cs == r.csT
  }

  /** One who waits goes on waiting unless the response comes, and asks nothing meanwhile. */
  predicate WaitsOn(r: Rx, p: Packet, r': Rx) {
    Waiting(r) && (p.kind != RetrResp || Ignores(r, r')) ==> StillWaits(r, r')
  }

  predicate StillWaits(r: Rx, r': Rx) {
    Waiting(r') && AskedNothing(r, r')
  }

  predicate Reacts(r: Rx, p: Packet, r': Rx) {
    && (Ignores(r, r') || Notes(r, p, r') || Takes(r, p, r')) && Confirming(r, r') && WaitsOn(r, p, r')
    && (AskedNothing(r, r') || AsksAndWaits(r, r')) && (r'.state == Start ==> r.state == Start)
  }

  lemma DataTaken(c: Conn, p: Packet, now: nat)
    requires p.kind == Data && c.state == Up && SnInSeq(c, p)
    ensures Reacts(RxOf(c), p, RxOf(RemoveConfirmed(UpdateConfirmed(UpdateConnection(AddAppMessages(c, p), p), p), now)))
  {
    hide RemoveConfirmed, AddAppMessages;
    AddAppMessagesRx(c, p);
    RemoveConfirmedQuiet(UpdateConfirmed(UpdateConnection(AddAppMessages(c, p), p), p), now);
  }

  lemma DataReacts(c: Conn, p: Packet, now: nat)
    requires p.kind == Data
    ensures Reacts(RxOf(c), p, RxOf(HandleData(c, p, now)))
  {
    hide RemoveConfirmed, AddAppMessages, CtsInSeq;
    if c.state == Up && SnInSeq(c, p) && CtsInSeq(c, p) {
      DataTaken(c, p, now);
      hide Reacts;
    }
  }

  lemma RetrReqReacts(c: Conn, p: Packet, now: nat)
    requires p.kind == RetrReq
    ensures Reacts(RxOf(c), p, RxOf(HandleRetrReq(c, p, now)))
  {
    hide Respond;
    var c1 := if c.state == RetrRunning then Close(c, now) else c;
    RespondQuiet(UpdateConnection(c1, p), p, now);
    RespondQuiet(c, p, now);
  }

  lemma HeartbeatReacts(c: Conn, p: Packet, now: nat)
    requires p.kind == Heartbeat
    ensures Reacts(RxOf(c), p, RxOf(HandleHeartbeat(c, p, now)))
  {
    hide RemoveConfirmed;
    RemoveConfirmedQuiet(UpdateConfirmed(UpdateConnection(c, p), p), now);
  }

  lemma RetrDataReacts(c: Conn, p: Packet, now: nat)
    requires p.kind == RetrData
    ensures Reacts(RxOf(c), p, RxOf(HandleRetrData(c, p, now)))
  {
    hide AddAppMessages, CtsInSeq;
    AddAppMessagesRx(c, p);
  }

  lemma CheckedReacts(c: Conn, p: Packet, now: nat)
    ensures Reacts(RxOf(c), p, RxOf(HandleChecked(c, p, now)))
  {
    hide HandleData, HandleRetrReq, HandleHeartbeat, HandleRetrData;
    match p.kind {
      case Data => DataReacts(c, p, now);
      case RetrReq => RetrReqReacts(c, p, now);
      case Heartbeat => HeartbeatReacts(c, p, now);
      case RetrData => RetrDataReacts(c, p, now);
      case _ =>
    }
  }

  lemma ConnRespReacts(c: Conn, p: Packet, env: Env)
    requires p.kind == ConnResp
    ensures Reacts(RxOf(c), p, RxOf(HandleConnResp(c, p, env)))
  {
    hide CheckPacket;
  }

  /** A PDU that arrives is ignored, noted or taken. */
  lemma ReceiveReacts(c: Conn, p: Packet, env: Env)
    requires p.kind != ConnReq
    ensures Reacts(RxOf(c), p, RxOf(Receive(c, p, env)))
  {
    hide HandleChecked, HandleConnResp;
    if p.kind == ConnResp {
      ConnRespReacts(c, p, env);
    } else {
      CheckedReacts(c, p, env.now);
    }
  }

  /** A PDU that fails a check is ignored. */
  lemma RejectedIsIgnored(c: Conn, p: Packet, env: Env)
    requires !Admitted(c, p) && p.kind != ConnReq && p.kind != ConnResp
    ensures Ignores(RxOf(c), RxOf(Receive(c, p, env)))
  {
  }

  /** A first heartbeat with a confirmed timestamp out of sequence is ignored, apart from closing. */
  lemma UntimelyIsIgnored(c: Conn, p: Packet, env: Env)
    requires p.kind == Heartbeat && c.state == Start && !CtsInSeq(c, p)
    ensures Ignores(RxOf(c), RxOf(Receive(c, p, env)))
  {
  }

  /** Without an arrival nothing is buffered or expected anew. */
  lemma LocalReacts(c: Conn, e: Local, now: nat)
    ensures
      var r, r' := RxOf(c), RxOf(LocalStep(c, e, now));
      && Ignores(r, r') && Confirming(r, r') && (Waiting(r) ==> StillWaits(r, r')) && AskedNothing(r, r')
      && (r'.state == Start ==> r.state == Start)
  {
    hide DataSend, Enqueue;
    DataSendQuiet(c, now);
    if e.AppSends? {
      EnqueueQuiet(c, e.messages, now);
    }
  }

  // ----- what both sides have in common -----

  /** From c to c' PDUs were sent, none of them a connection request. */
  predicate NoNewConnReq(c: Conn, c': Conn) {
    && c.log.sent <= c'.log.sent
    && forall m :: |c.log.sent| <= m < |c'.log.sent| ==> !c'.log.sent[m].kind.ConnReq?
  }

  lemma ReceiveNoConnReq(c: Conn, p: Packet, env: Env)
    ensures NoNewConnReq(c, Receive(c, p, env))
  {
    if p.kind == ConnReq {
      hide CheckPacket;
    } else {
      hide Receive;
      var inv := (s: Tx) => c.log.sent <= s.sent && forall m :: |c.log.sent| <= m < |s.sent| ==> !s.sent[m].kind.ConnReq?;
      ReceiveMoves(inv, inv, c, p, env);
    }
  }

  lemma LocalNoConnReq(c: Conn, e: Local, now: nat)
    ensures NoNewConnReq(c, LocalStep(c, e, now))
  {
    hide LocalStep;
    var inv := (s: Tx) => c.log.sent <= s.sent && forall m :: |c.log.sent| <= m < |s.sent| ==> !s.sent[m].kind.ConnReq?;
    LocalMoves(inv, false, c, e, now);
  }
}

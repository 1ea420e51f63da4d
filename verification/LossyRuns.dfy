/**
  Two honest endpoints over channels that keep the order of PDUs and may lose any of them: whatever
  is lost, an endpoint buffers batches of its peer in order, none twice.
 */
module LossyRuns {
  import opened Packets
  import opened SafetyLayer
  import opened Runs
  import opened Moves

  // ----- the invariant of one direction: `s` sends, `r` receives -----

  predicate Genuine(batches: seq<seq<Message>>, p: Packet) {
    p.origin < |batches| && p.batch == batches[p.origin]
  }

  /** The retransmission queue holds genuine batches, ordered by number and by origin. */
  predicate QueueShape(fifo: seq<Packet>, batches: seq<seq<Message>>, snT: nat) {
    && (forall k :: 0 <= k < |fifo| ==> Genuine(batches, fifo[k]) && fifo[k].sn < snT)
    && (forall k, l :: 0 <= k < l < |fifo| ==> fifo[k].sn < fifo[l].sn && fifo[k].origin < fifo[l].origin)
  }

  predicate AllGenuine(sent: seq<Packet>, batches: seq<seq<Message>>) {
    forall m :: 0 <= m < |sent| && Bears(sent[m]) ==> Genuine(batches, sent[m])
  }

  /** What was buffered: genuine batches, in the sender's order, none twice. */
  predicate InOrderSubsequence(accepted: seq<Packet>, batches: seq<seq<Message>>) {
    && (forall k :: 0 <= k < |accepted| ==> Genuine(batches, accepted[k]))
    && (forall k, l :: 0 <= k < l < |accepted| ==> accepted[k].origin < accepted[l].origin)
  }

  /** Every queued PDU below the high-water mark has a number up to `cs`. */
  predicate CoveredBy(fifo: seq<Packet>, hw: nat, cs: int) {
    forall k :: 0 <= k < |fifo| && fifo[k].origin < hw ==> fifo[k].sn <= cs
  }

  /** From position m on the channel carries batches from hw upwards, in order ... */
  predicate Ascending(sent: seq<Packet>, m: nat, hw: nat) {
    && (forall n :: m <= n < |sent| && Bears(sent[n]) ==> sent[n].origin >= hw)
    && (forall n, n' :: m <= n < n' < |sent| && Bears(sent[n]) && Bears(sent[n']) ==>
          sent[n].origin < sent[n'].origin)
  }

  /** ... and none of them is queued under a later number than the one it is carried with. */
  predicate Current(sent: seq<Packet>, m: nat, fifo: seq<Packet>) {
    forall n, k :: m <= n < |sent| && Bears(sent[n]) && 0 <= k < |fifo| && fifo[k].origin <= sent[n].origin ==>
      fifo[k].sn <= sent[n].sn
  }

  predicate Live(s: Tx, m: nat, hw: nat) {
    Ascending(s.sent, m, hw) && Current(s.sent, m, s.fifo)
  }

  /** No PDU of this kind is under way. */
  predicate NonePending(sent: seq<Packet>, from: nat, kind: Kind) {
    forall m :: from <= m < |sent| ==> sent[m].kind != kind
  }

  predicate AtMostOnePending(sent: seq<Packet>, from: nat, kind: Kind) {
    forall m, n :: from <= m < n < |sent| && sent[m].kind == kind ==> sent[n].kind != kind
  }

  /** At most one retransmission request or response is under way, and only while `r` waits. */
  predicate OneExchange(s: Tx, i: nat, r: Rx, j: nat) {
    && AtMostOnePending(r.sent, j, RetrReq)
    && AtMostOnePending(s.sent, i, RetrResp)
    && (NonePending(r.sent, j, RetrReq) || NonePending(s.sent, i, RetrResp))
    && (!Waiting(r) ==> NonePending(r.sent, j, RetrReq) && NonePending(s.sent, i, RetrResp))
  }

  predicate Requested(s: Tx, r: Rx, j: nat) {
    forall m :: j <= m < |r.sent| && r.sent[m].kind == RetrReq ==>
      CoveredBy(s.fifo, HighWater(r), r.sent[m].cs)
  }

  predicate Answered(s: Tx, i: nat, r: Rx) {
    forall m :: i <= m < |s.sent| && s.sent[m].kind == RetrResp ==>
      Live(s, m + 1, HighWater(r)) && CoveredBy(s.fifo, HighWater(r), -1)
  }

  predicate SenderShape(s: Tx) {
    QueueShape(s.fifo, s.batches, s.snT) && AllGenuine(s.sent, s.batches)
  }

  /** `s` sends to `r`, which consumed i PDUs; `s` consumed j PDUs of `r`. */
  predicate Direction(s: Tx, i: nat, r: Rx, j: nat) {
    && i <= |s.sent| && j <= |r.sent|
    && SenderShape(s)
    && InOrderSubsequence(r.accepted, s.batches)
    && r.csT <= r.snR
    && (r.state == Start ==> r.accepted == [])
    && OneExchange(s, i, r, j)
    && (!Waiting(r) ==> Live(s, i, HighWater(r)) && CoveredBy(s.fifo, HighWater(r), r.csT))
    && Requested(s, r, j)
    && Answered(s, i, r)
  }

  // ----- what a sender may do -----

  lemma PopShape(s: Tx, cs: nat)
    requires SenderShape(s)
    ensures SenderShape(s.(fifo := PopConfirmed(s.fifo, cs)))
  {
    var k := PopConfirmedIsSuffix(s.fifo, cs);
  }

  lemma PopLive(s: Tx, cs: nat, m: nat, hw: nat)
    requires Live(s, m, hw)
    ensures Live(s.(fifo := PopConfirmed(s.fifo, cs)), m, hw)
  {
    var k := PopConfirmedIsSuffix(s.fifo, cs);
  }

  lemma PopCovered(q: seq<Packet>, cs: nat, hw: nat, bound: int)
    requires CoveredBy(q, hw, bound)
    ensures CoveredBy(PopConfirmed(q, cs), hw, bound)
  {
    var k := PopConfirmedIsSuffix(q, cs);
  }

  lemma PopSender(s: Tx, cs: nat, i: nat, r: Rx, j: nat)
    requires Direction(s, i, r, j)
    ensures Direction(s.(fifo := PopConfirmed(s.fifo, cs)), i, r, j)
  {
    hide SenderShape, Live, CoveredBy, OneExchange;
    var s' := s.(fifo := PopConfirmed(s.fifo, cs));
    PopShape(s, cs);
    OneExchangeOf(s, s', i, r, j);
    forall m, hw | Live(s, m, hw) ensures Live(s', m, hw) {
      PopLive(s, cs, m, hw);
    }
    forall hw, bound | CoveredBy(s.fifo, hw, bound) ensures CoveredBy(s'.fifo, hw, bound) {
      PopCovered(s.fifo, cs, hw, bound);
    }
  }

  /** Exchanges are a matter of the responses that are under way. */
  lemma OneExchangeOf(s: Tx, s': Tx, i: nat, r: Rx, j: nat)
    requires OneExchange(s, i, r, j) && s.sent <= s'.sent
    requires forall m :: |s.sent| <= m < |s'.sent| ==> s'.sent[m].kind != RetrResp
    ensures OneExchange(s', i, r, j)
  {
  }

  /** A control PDU other than a response leaves the sender's side as it is. */
  lemma ControlSender(s: Tx, p: Packet, snT: nat, i: nat, r: Rx, j: nat)
    requires Direction(s, i, r, j)
    requires !Bears(p) && p.kind != RetrResp && snT >= s.snT
    ensures Direction(s.(sent := s.sent + [p], snT := snT), i, r, j)
  {
    var s' := s.(sent := s.sent + [p], snT := snT);
    assert forall m, hw :: Live(s, m, hw) ==> Live(s', m, hw);
  }

  lemma DataLive(s: Tx, p: Packet, m: nat, hw: nat)
    requires SenderShape(s) && Live(s, m, hw) && hw <= |s.batches|
    requires p.kind == Data && p.sn == s.snT && p.origin == |s.batches|
    ensures Live(WithData(s, p), m, hw)
  {
  }

  lemma DataShape(s: Tx, p: Packet)
    requires SenderShape(s) && p.sn == s.snT && p.origin == |s.batches|
    ensures SenderShape(WithData(s, p))
  {
  }

  lemma DataCovered(s: Tx, p: Packet, hw: nat, cs: int)
    requires CoveredBy(s.fifo, hw, cs) && hw <= p.origin
    ensures CoveredBy(s.fifo + [p], hw, cs)
  {
  }

  lemma MarkFits(r: Rx, batches: seq<seq<Message>>, more: seq<seq<Message>>)
    requires InOrderSubsequence(r.accepted, batches)
    ensures HighWater(r) <= |batches| && InOrderSubsequence(r.accepted, batches + more)
  {
  }

  lemma DataSender(s: Tx, p: Packet, i: nat, r: Rx, j: nat)
    requires Direction(s, i, r, j)
    requires p.kind == Data && p.sn == s.snT && p.origin == |s.batches|
    ensures Direction(WithData(s, p), i, r, j)
  {
    hide SenderShape, Live, CoveredBy, InOrderSubsequence, HighWater, OneExchange;
    var s', hw := WithData(s, p), HighWater(r);
    DataShape(s, p);
    MarkFits(r, s.batches, [p.batch]);
    OneExchangeOf(s, s', i, r, j);
    forall m | Live(s, m, hw) ensures Live(s', m, hw) {
      DataLive(s, p, m, hw);
    }
    forall cs | CoveredBy(s.fifo, hw, cs) ensures CoveredBy(s'.fifo, hw, cs) {
      DataCovered(s, p, hw, cs);
    }
  }

  // ----- how a sender answers a request -----

  lemma RepliedLive(s: Tx, resp: Packet, b: seq<Packet>, last: Packet, hw: nat)
    requires QueueShape(b, s.batches, s.snT + |b| + 1) && CoveredBy(b, hw, -1)
    requires !Bears(last)
    ensures Live(Replied(s, resp, b, last), |s.sent| + 1, hw)
  {
    var sent := s.sent + [resp] + b + [last];
    assert forall n :: |s.sent| + 1 <= n < |s.sent| + 1 + |b| ==> sent[n] == b[n - |s.sent| - 1];
  }

  /** The request at position j, answered from a queue beyond what it confirms, opens the way for the burst. */
  lemma ReplySender(s: Tx, m: Move, i: nat, r: Rx, j: nat)
    requires Direction(s, i, r, j) && j < |r.sent| && r.sent[j].kind == RetrReq
    requires m.Again? && Possible(s, m) && Beyond(s.fifo, r.sent[j].cs)
    ensures Direction(Moved(s, m), i, r, j + 1)
  {
    var s', hw := Moved(s, m), HighWater(r);
    BurstShape(s, m, hw, r.sent[j].cs);
    RepliedLive(s, m.resp, m.burst, m.last, hw);
    RepliedGenuine(s, m);
    assert NonePending(s.sent, i, RetrResp);
    OnlyResponse(s, m, i);
    hide AllGenuine, QueueShape, Live, CoveredBy, IsBurst, Moved, InOrderSubsequence, Beyond;
  }

  lemma RepliedGenuine(s: Tx, m: Move)
    requires m.Again? && Possible(s, m)
    requires AllGenuine(s.sent, s.batches) && QueueShape(m.burst, s.batches, s.snT + |m.burst| + 1)
    ensures AllGenuine(Moved(s, m).sent, s.batches)
  {
  }

  lemma OnlyResponse(s: Tx, m: Move, i: nat)
    requires NonePending(s.sent, i, RetrResp) && i <= |s.sent| && m.Again? && Possible(s, m)
    ensures
      var sent := Moved(s, m).sent;
      |s.sent| < |sent| && forall n :: i <= n < |sent| && sent[n].kind == RetrResp ==> n == |s.sent|
  {
  }

  lemma BurstShape(s: Tx, m: Move, hw: nat, cs: nat)
    requires m.Again? && Possible(s, m) && SenderShape(s) && CoveredBy(s.fifo, hw, cs) && Beyond(s.fifo, cs)
    ensures QueueShape(m.burst, s.batches, s.snT + |m.burst| + 1) && CoveredBy(m.burst, hw, -1)
  {
    assert forall k :: 0 <= k < |m.burst| ==> Genuine(s.batches, s.fifo[k]);
  }

  // ----- loss -----

  lemma Consume(s: Tx, i: nat, r: Rx, j: nat)
    requires Direction(s, i, r, j) && i < |s.sent|
    ensures Direction(s, i + 1, r, j)
  {
  }

  lemma ConsumeBack(s: Tx, i: nat, r: Rx, j: nat)
    requires Direction(s, i, r, j) && j < |r.sent|
    ensures Direction(s, i, r, j + 1)
  {
  }

  // ----- what a receiver may do -----

  /** It buffers nothing, asks for nothing and leaves no waiting state. */
  lemma PassiveReceiver(s: Tx, i: nat, r: Rx, r': Rx, j: nat)
    requires Direction(s, i, r, j)
    requires r'.accepted == r.accepted && r.sent <= r'.sent
    requires forall m :: |r.sent| <= m < |r'.sent| ==> r'.sent[m].kind != RetrReq
    requires r'.csT <= r'.snR
    requires !Waiting(r') ==> !Waiting(r) && (r.csT <= r'.csT || r.accepted == [])
    requires r'.state == Start ==> r.state == Start
    ensures Direction(s, i, r', j)
  {
  }

  lemma AcceptingReceiver(s: Tx, i: nat, r: Rx, j: nat)
    requires Direction(s, i, r, j) && !Waiting(r) && r.state != Start
    requires i < |s.sent| && Bears(s.sent[i])
    ensures Direction(s, i + 1,
                      Rx(r.state, s.sent[i].sn, s.sent[i].sn + 1, r.accepted + [s.sent[i]], r.sent), j)
  {
  }

  lemma RequestingReceiver(s: Tx, i: nat, r: Rx, p: Packet, j: nat)
    requires Direction(s, i, r, j) && !Waiting(r)
    requires p.kind == RetrReq && p.cs == r.csT
    ensures Direction(s, i, r.(state := RetrRequested, sent := r.sent + [p]), j)
  {
  }

  lemma AnsweredReceiver(s: Tx, i: nat, r: Rx, j: nat)
    requires Direction(s, i, r, j) && i < |s.sent| && s.sent[i].kind == RetrResp
    ensures Direction(s, i + 1, r.(state := RetrRunning, csT := s.sent[i].sn, snR := s.sent[i].sn + 1), j)
  {
  }

  // ----- every move and every reaction -----

  lemma QueueSorted(s: Tx, i: nat, r: Rx, j: nat)
    requires Direction(s, i, r, j)
    ensures Sorted(s.fifo) && i <= |s.sent| && j <= |r.sent| && r.csT <= r.snR && (r.state == Start ==> r.accepted == [])
  {
  }

  lemma MoveKeepsDirection(s: Tx, m: Move, i: nat, r: Rx, j: nat)
    requires Direction(s, i, r, j) && Possible(s, m) && !m.Again?
    ensures Direction(Moved(s, m), i, r, j)
  {
    hide Direction;
    match m {
      case Drop(cs) => PopSender(s, cs, i, r, j);
      case Say(p) => ControlSender(s, p, Moved(s, m).snT, i, r, j);
      case First(p) => DataSender(s, p, i, r, j);
    }
  }

  /** The sender handles the next PDU of the receiver. */
  lemma SenderReceives(c: Conn, p: Packet, env: Env, i: nat, r: Rx, j: nat)
    requires Direction(TxOf(c), i, r, j) && j < |r.sent| && p == r.sent[j] && p.kind != ConnReq
    ensures Direction(TxOf(Receive(c, p, env)), i, r, j + 1)
  {
    hide Direction, Receive, Possible, Moved, Removes, Beyond;
    var inv, fin := (s: Tx) => Direction(s, i, r, j), (s: Tx) => Direction(s, i, r, j + 1);
    QueueSorted(TxOf(c), i, r, j);
    forall s | inv(s) ensures fin(s) {
      ConsumeBack(s, i, r, j);
    }
    forall s, m | inv(s) && Possible(s, m) && Provoked(c, p, s, m)
      ensures if m.Again? then fin(Moved(s, m)) else inv(Moved(s, m))
    {
      if m.Again? {
        ReplySender(s, m, i, r, j);
      } else {
        MoveKeepsDirection(s, m, i, r, j);
      }
    }
    ReceiveMoves(inv, fin, c, p, env);
  }

  lemma SenderLocal(c: Conn, e: Local, now: nat, i: nat, r: Rx, j: nat)
    requires Direction(TxOf(c), i, r, j)
    ensures Direction(TxOf(LocalStep(c, e, now)), i, r, j)
  {
    hide Direction, LocalStep, Possible, Moved;
    var inv := (s: Tx) => Direction(s, i, r, j);
    forall s, m | inv(s) && Possible(s, m) && (m.Say? || m.First?) ensures inv(Moved(s, m)) {
      MoveKeepsDirection(s, m, i, r, j);
    }
    LocalMoves(inv, false, c, e, now);
  }

  /** The receiver ignores, notes or takes the next PDU of the sender. */
  lemma ReactionKeepsDirection(s: Tx, i: nat, r: Rx, r': Rx, j: nat)
    requires Direction(s, i, r, j) && i < |s.sent| && Reacts(r, s.sent[i], r')
    ensures Direction(s, i + 1, r', j)
  {
    hide Direction, HighWater;
    var p := s.sent[i];
    QueueSorted(s, i, r, j);
    Consume(s, i, r, j);
    if AsksAndWaits(r, r') {
      RequestingReceiver(s, i + 1, r, r'.sent[|r.sent|], j);
      assert r' == r.(state := RetrRequested, sent := r.sent + [r'.sent[|r.sent|]]);
    } else if Takes(r, p, r') {
      AcceptingReceiver(s, i, r, j);
      PassiveReceiver(s, i + 1, Rx(r.state, p.sn, p.sn + 1, r.accepted + [p], r.sent), r', j);
    } else if p.kind == RetrResp && !Ignores(r, r') {
      AnsweredReceiver(s, i, r, j);
      assert r' == r.(state := RetrRunning, csT := p.sn, snR := p.sn + 1);
    } else {
      PassiveReceiver(s, i + 1, r, r', j);
    }
  }

  lemma ReceiverReceives(s: Tx, i: nat, c: Conn, p: Packet, env: Env, j: nat)
    requires Direction(s, i, RxOf(c), j) && i < |s.sent| && p == s.sent[i] && p.kind != ConnReq
    ensures Direction(s, i + 1, RxOf(Receive(c, p, env)), j)
  {
    hide Direction, Receive, Reacts;
    ReceiveReacts(c, p, env);
    ReactionKeepsDirection(s, i, RxOf(c), RxOf(Receive(c, p, env)), j);
  }

  lemma ReceiverLocal(s: Tx, i: nat, c: Conn, e: Local, now: nat, j: nat)
    requires Direction(s, i, RxOf(c), j)
    ensures Direction(s, i, RxOf(LocalStep(c, e, now)), j)
  {
    hide Direction, LocalStep;
    QueueSorted(s, i, RxOf(c), j);
    LocalReacts(c, e, now);
    PassiveReceiver(s, i, RxOf(c), RxOf(LocalStep(c, e, now)), j);
  }

  // ----- the handshake -----

  /** As long as b has not seen the connection request, b is untouched and a has no data. */
  predicate Opening(n: Net) {
    && n.atA == 0
    && n.b.state == Closed && n.b.log == EMPTY_LOG && n.b.fifoSend == [] && n.b.fifoRetr == []
    && (n.a.state == Start || n.a.state == Closed)
    && n.a.fifoSend == [] && n.a.fifoRetr == [] && n.a.log.batches == [] && n.a.log.accepted == []
    && (forall m :: 0 < m < |n.a.log.sent| ==> n.a.log.sent[m].kind == DiscReq)
  }

  predicate Inv(n: Net) {
    && Direction(TxOf(n.a), n.atB, RxOf(n.b), n.atA)
    && Direction(TxOf(n.b), n.atA, RxOf(n.a), n.atB)
    && n.a.log.sent != [] && n.a.log.sent[0].kind == ConnReq
    && NonePending(n.a.log.sent, 1, ConnReq) && NonePending(n.b.log.sent, 0, ConnReq)
    && (n.atB == 0 ==> Opening(n))
  }

  /** Before any data was sent the invariant holds of any two endpoints. */
  lemma NoDataYet(s: Tx, i: nat, r: Rx, j: nat)
    requires i <= |s.sent| && j <= |r.sent| && s.fifo == [] && r.accepted == [] && r.csT <= r.snR
    requires forall m :: 0 <= m < |s.sent| ==> !Bears(s.sent[m]) && !s.sent[m].kind.RetrResp?
    requires forall m :: 0 <= m < |r.sent| ==> !r.sent[m].kind.RetrReq?
    ensures Direction(s, i, r, j)
  {
  }

  lemma ConnReqKeepsInv(n: Net, env: Env)
    requires Inv(n) && n.atB == 0
    ensures Inv(Next(n, BReceives(env)))
  {
    hide Direction;
    QueueSorted(TxOf(n.a), n.atB, RxOf(n.b), n.atA);
    QueueSorted(TxOf(n.b), n.atA, RxOf(n.a), n.atB);
    var n' := Next(n, BReceives(env));
    NoDataYet(TxOf(n'.a), n'.atB, RxOf(n'.b), n'.atA);
    NoDataYet(TxOf(n'.b), n'.atA, RxOf(n'.a), n'.atB);
  }

  lemma InitInv(n: Net)
    requires Init(n)
    ensures Inv(n)
  {
    hide Direction;
    NoDataYet(TxOf(n.a), n.atB, RxOf(n.b), n.atA);
    NoDataYet(TxOf(n.b), n.atA, RxOf(n.a), n.atB);
  }

  /** Before it is connected an endpoint without queued messages can only send disconnection requests. */
  lemma SilentLocal(c: Conn, e: Local, now: nat)
    requires (c.state == Start || c.state == Closed) && c.fifoSend == []
    ensures
      var c' := LocalStep(c, e, now);
      && c'.fifoSend == [] && c'.fifoRetr == c.fifoRetr && c'.csT == c.csT && c'.log.batches == c.log.batches
      && c'.log.accepted == c.log.accepted && c.log.sent <= c'.log.sent
      && (forall m :: |c.log.sent| <= m < |c'.log.sent| ==>
            c'.log.sent[m].kind == DiscReq && c'.log.sent[m].cs == c.csT)
      && (c'.state == Start ==> c'.log == c.log)
      && (c'.state == Start || c'.state == Closed)
      && (c.state == Closed ==> c'.log == c.log && c'.state == Closed)
  {
  }

  lemma NextInv(n: Net, st: Step)
    requires Inv(n) && Enabled(n, st)
    ensures Inv(Next(n, st))
  {
    hide Direction, Receive, LocalStep;
    match st {
      case AReceives(env) =>
        var p := n.b.log.sent[n.atA];
        SenderReceives(n.a, p, env, n.atB, RxOf(n.b), n.atA);
        ReceiverReceives(TxOf(n.b), n.atA, n.a, p, env, n.atB);
        ReceiveNoConnReq(n.a, p, env);
      case BReceives(env) =>
        if n.atB == 0 {
          ConnReqKeepsInv(n, env);
        } else {
          var p := n.a.log.sent[n.atB];
          SenderReceives(n.b, p, env, n.atA, RxOf(n.a), n.atB);
          ReceiverReceives(TxOf(n.a), n.atB, n.b, p, env, n.atA);
          ReceiveNoConnReq(n.b, p, env);
        }
      case ALoses =>
        Consume(TxOf(n.b), n.atA, RxOf(n.a), n.atB);
        ConsumeBack(TxOf(n.a), n.atB, RxOf(n.b), n.atA);
      case BLoses =>
        Consume(TxOf(n.a), n.atB, RxOf(n.b), n.atA);
        ConsumeBack(TxOf(n.b), n.atA, RxOf(n.a), n.atB);
      case ALocal(e, now) =>
        SenderLocal(n.a, e, now, n.atB, RxOf(n.b), n.atA);
        ReceiverLocal(TxOf(n.b), n.atA, n.a, e, now, n.atB);
        LocalNoConnReq(n.a, e, now);
        if n.atB == 0 {
          SilentLocal(n.a, e, now);
        }
      case BLocal(e, now) =>
        SenderLocal(n.b, e, now, n.atA, RxOf(n.a), n.atB);
        ReceiverLocal(TxOf(n.a), n.atB, n.b, e, now, n.atA);
        LocalNoConnReq(n.b, e, now);
        if n.atB == 0 {
          SilentLocal(n.b, e, now);
        }
    }
  }

  lemma {:induction false} RunInv(run: seq<Net>, steps: seq<Step>, k: nat)
    requires IsRun(run, steps) && k < |run|
    ensures Inv(run[k])
  {
    if k == 0 {
      InitInv(run[0]);
    } else {
      RunInv(run, steps, k - 1);
      NextInv(run[k - 1], steps[k - 1]);
    }
  }

  /**
    In every run, whatever was lost, renumbered, retransmitted or removed from the retransmission
    queue too early: the PDUs whose messages an endpoint buffered carry batches its peer sent, in
    the order of first sending, none twice.
   */
  lemma BufferedInOrderWithoutDuplicates(run: seq<Net>, steps: seq<Step>, k: nat)
    requires IsRun(run, steps) && k < |run|
    ensures InOrderSubsequence(run[k].b.log.accepted, run[k].a.log.batches)
    ensures InOrderSubsequence(run[k].a.log.accepted, run[k].b.log.batches)
  {
    RunInv(run, steps, k);
  }
}

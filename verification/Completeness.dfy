/**
  When nothing is missing.  Two honest endpoints over channels that may lose any PDU: why data in
  sequence never meets a running retransmission, and exactly when every batch stays either buffered
  by the receiver or queued by the sender.
 */
module Completeness {
  import opened Packets
  import opened SafetyLayer
  import opened Runs
  import opened LossyRuns
  import opened Moves
  import opened SenderLog
  import D = Delivery
  import E = Endpoint

  // ----- a receiver follows the log -----

  /** The receiver of a retransmission expects the next PDU of the burst, or has missed one. */
  predicate InRetransmission(s: Tx, i: nat, r: Rx) {
    r.state == RetrRunning && NextSn(s, i) == r.snR ==> i < |s.sent| && InBurst(s.sent[i])
  }

  /** What the receiver buffered comes before every count under way. */
  predicate Ahead(s: Tx, i: nat, r: Rx) {
    HighWater(r) <= |s.batches| && forall m :: i <= m < |s.sent| && !Bears(s.sent[m]) ==> HighWater(r) <= s.sent[m].origin
  }

  predicate ConfirmsBelow(ps: seq<Packet>, cs: nat) {
    forall m :: 0 <= m < |ps| ==> ps[m].cs <= cs
  }

  /** `r` has consumed the first i PDUs of `s`. */
  predicate Follows(s: Tx, i: nat, r: Rx) {
    && i <= |s.sent| && r.snR <= NextSn(s, i)
    && (r.snR == r.csT + 1 || r.snR == r.csT == 0)
    && InRetransmission(s, i, r) && Ahead(s, i, r) && ConfirmsBelow(r.sent, r.csT)
  }

  lemma MoveKeepsFollows(s: Tx, m: Move, i: nat, r: Rx)
    requires InOrder(s) && Possible(s, m) && Follows(s, i, r)
    ensures Follows(Moved(s, m), i, r)
  {
    hide QueuePart, Linked, Below, Tagged, ConfirmsBelow;
    if m.Again? {
      AnswerIsAppended(s, m);
    }
  }

  lemma ReactionKeepsFollows(s: Tx, i: nat, r: Rx, r': Rx)
    requires InOrder(s) && Follows(s, i, r) && i < |s.sent| && s.sent[i].kind != ConnReq && Reacts(r, s.sent[i], r')
    ensures Follows(s, i + 1, r')
  {
    hide QueuePart;
  }

  // ----- along every run -----

  predicate Way(s: Conn, i: nat, r: Conn) {
    InOrder(TxOf(s)) && Follows(TxOf(s), i, RxOf(r))
  }

  predicate NetWay(n: Net) {
    Way(n.a, n.atB, n.b) && Way(n.b, n.atA, n.a) && (n.atA == 0 ==> n.a.snR == 0)
  }

  lemma SoundIsReady(c: Conn)
    requires E.Sound(c)
    ensures Ready(c)
  {
  }

  predicate BothReady(n: Net) {
    Ready(n.a) && Ready(n.b)
  }

  lemma RunReady(run: seq<Net>, steps: seq<Step>, k: nat)
    requires IsRun(run, steps) && k < |run|
    ensures BothReady(run[k])
  {
    hide IsRun, E.Sound, Ready;
    D.RunSound(run, steps, k);
    SoundIsReady(run[k].a);
    SoundIsReady(run[k].b);
  }

  /** The sending side of an arrival. */
  lemma ArrivalKeepsWay(c: Conn, p: Packet, env: Env, i: nat, r: Conn)
    requires Way(c, i, r) && p.kind != ConnReq
    ensures Way(Receive(c, p, env), i, r)
  {
    hide InOrder, Follows, Possible, Moved, Receive;
    var inv := (s: Tx) => InOrder(s) && Follows(s, i, RxOf(r));
    forall s, m | inv(s) && Possible(s, m) && Provoked(c, p, s, m) ensures inv(Moved(s, m)) {
      MoveKeepsLog(s, m);
      MoveKeepsFollows(s, m, i, RxOf(r));
    }
    ReceiveMoves(inv, inv, c, p, env);
  }

  lemma LocalKeepsWay(c: Conn, e: Local, now: nat, i: nat, r: Conn)
    requires Way(c, i, r) && Ready(c)
    ensures Way(LocalStep(c, e, now), i, r)
  {
    hide InOrder, Follows, Possible, Moved, LocalStep;
    var inv := (s: Tx) => InOrder(s) && Follows(s, i, RxOf(r));
    forall s, m | inv(s) && Possible(s, m) && (m.Say? || (m.First? && s.snT > 0)) ensures inv(Moved(s, m)) {
      MoveKeepsLog(s, m);
      MoveKeepsFollows(s, m, i, RxOf(r));
    }
    LocalMoves(inv, true, c, e, now);
  }

  /** The receiving side of an arrival. */
  lemma ArrivalIsFollowed(s: Conn, i: nat, c: Conn, env: Env)
    requires Way(s, i, c) && i < |s.log.sent| && s.log.sent[i].kind != ConnReq
    ensures Way(s, i + 1, Receive(c, s.log.sent[i], env))
  {
    hide InOrder, Follows, Receive, Reacts;
    ReceiveReacts(c, s.log.sent[i], env);
    ReactionKeepsFollows(TxOf(s), i, RxOf(c), RxOf(Receive(c, s.log.sent[i], env)));
  }

  lemma LossIsFollowed(s: Conn, i: nat, c: Conn)
    requires Way(s, i, c) && i < |s.log.sent|
    ensures Way(s, i + 1, c)
  {
    hide QueuePart;
  }

  lemma LocalIsFollowed(s: Conn, i: nat, c: Conn, e: Local, now: nat)
    requires Way(s, i, c)
    ensures Way(s, i, LocalStep(c, e, now)) && LocalStep(c, e, now).snR == c.snR
  {
    hide InOrder, LocalStep;
    LocalReacts(c, e, now);
  }

  /** A server that has just been asked has sent its response or nothing, and has no batch. */
  predicate JustAsked(b: Conn, p: Packet, b': Conn) {
    && b'.log.batches == [] && b'.fifoRetr == [] && b'.log.accepted == [] && b'.state != RetrRunning
    && (if b'.log.sent == [] then b'.snR == b.snR && b'.csT == b.csT
        else
          && |b'.log.sent| == 1 && b'.log.sent[0].kind == ConnResp && b'.log.sent[0].origin == 0
          && b'.log.sent[0].cs == b'.csT && b'.snT == b'.log.sent[0].sn + 1
          && b'.snR == p.sn + 1 && b'.csT == p.sn)
  }

  lemma RequestAsks(b: Conn, p: Packet, env: Env)
    requires b.state == Closed && b.log == EMPTY_LOG && b.fifoRetr == [] && p.kind == ConnReq
    ensures JustAsked(b, p, Receive(b, p, env))
  {
    hide CheckPacket;
  }

  lemma AskedFollows(s: Tx, b: Conn, b': Conn)
    requires InOrder(s) && Follows(s, 0, RxOf(b)) && s.sent != [] && s.sent[0].kind == ConnReq
    requires b.log == EMPTY_LOG && JustAsked(b, s.sent[0], b')
    ensures Follows(s, 1, RxOf(b')) && s.sent[0].origin == 0
  {
    hide QueuePart;
  }

  lemma AskedSends(b: Conn, p: Packet, b': Conn, r: Rx)
    requires JustAsked(b, p, b') && Follows(TxOf(b), 0, r) && r.snR == 0 && r.accepted == [] && r.state != RetrRunning
    ensures InOrder(TxOf(b')) && Follows(TxOf(b'), 0, r)
  {
  }

  /** The connection request is the first PDU, and nothing else has happened before it arrives. */
  lemma RequestKeepsWay(n: Net, env: Env)
    requires Inv(n) && NetWay(n) && n.atB == 0
    ensures NetWay(Next(n, BReceives(env)))
  {
    hide Direction, InOrder, Follows, Receive, JustAsked;
    var b' := Receive(n.b, n.a.log.sent[0], env);
    RequestAsks(n.b, n.a.log.sent[0], env);
    AskedFollows(TxOf(n.a), n.b, b');
    AskedSends(n.b, n.a.log.sent[0], b', RxOf(n.a));
  }

  lemma NextWay(n: Net, st: Step)
    requires Inv(n) && BothReady(n) && NetWay(n) && Enabled(n, st)
    ensures NetWay(Next(n, st))
  {
    hide Direction, Way, Receive, LocalStep;
    match st {
      case AReceives(env) =>
        ArrivalKeepsWay(n.a, n.b.log.sent[n.atA], env, n.atB, n.b);
        ArrivalIsFollowed(n.b, n.atA, n.a, env);
      case BReceives(env) =>
        if n.atB == 0 {
          RequestKeepsWay(n, env);
        } else {
          ArrivalKeepsWay(n.b, n.a.log.sent[n.atB], env, n.atA, n.a);
          ArrivalIsFollowed(n.a, n.atB, n.b, env);
        }
      case ALoses => LossIsFollowed(n.b, n.atA, n.a);
      case BLoses => LossIsFollowed(n.a, n.atB, n.b);
      case ALocal(e, now) =>
        LocalKeepsWay(n.a, e, now, n.atB, n.b);
        LocalIsFollowed(n.b, n.atA, n.a, e, now);
      case BLocal(e, now) =>
        LocalKeepsWay(n.b, e, now, n.atA, n.a);
        LocalIsFollowed(n.a, n.atB, n.b, e, now);
    }
  }

  lemma InitWay(n: Net)
    requires Init(n)
    ensures NetWay(n)
  {
    var ca: Config, cb: Config, now: nat :| n == Net(Connected(Fresh(ca), now), Fresh(cb), 0, 0);
    FreshWay(cb, RxOf(n.a));
    DialedWay(ca, now, RxOf(n.b));
  }

  lemma FreshWay(cfg: Config, r: Rx)
    requires r.snR == r.csT == 0 && r.accepted == [] && r.state != RetrRunning && ConfirmsBelow(r.sent, 0)
    ensures InOrder(TxOf(Fresh(cfg))) && Follows(TxOf(Fresh(cfg)), 0, r)
  {
  }

  lemma DialedWay(cfg: Config, now: nat, r: Rx)
    requires r.snR == r.csT == 0 && r.accepted == [] && r.state != RetrRunning && r.sent == []
    ensures
      var s := TxOf(Connected(Fresh(cfg), now));
      InOrder(s) && Follows(s, 0, r) && ConfirmsBelow(s.sent, 0)
  {
  }

  lemma {:induction false} RunWay(run: seq<Net>, steps: seq<Step>, k: nat)
    requires IsRun(run, steps) && k < |run|
    ensures NetWay(run[k])
  {
    hide NetWay, Inv, Init, Next, BothReady;
    if k == 0 {
      InitWay(run[0]);
    } else {
      RunWay(run, steps, k - 1);
      RunInv(run, steps, k - 1);
      RunReady(run, steps, k - 1);
      NextWay(run[k - 1], steps[k - 1]);
    }
  }

  /**
    In no run does data in sequence reach an endpoint that receives a retransmission: the burst is
    sent at once, and its heartbeat ends that state before any data can carry the expected number.
   */
  lemma DataNeverMeetsRetransmission(run: seq<Net>, steps: seq<Step>, k: nat)
    requires IsRun(run, steps) && k < |run|
    ensures
      var n := run[k];
      n.atB < |n.a.log.sent| && n.a.log.sent[n.atB].kind == Data && n.b.state == RetrRunning ==>
        !SnInSeq(n.b, n.a.log.sent[n.atB])
    ensures
      var n := run[k];
      n.atA < |n.b.log.sent| && n.b.log.sent[n.atA].kind == Data && n.a.state == RetrRunning ==>
        !SnInSeq(n.a, n.b.log.sent[n.atA])
  {
    RunWay(run, steps, k);
  }

  // ----- the two guards -----

  /** Removal by `cs` keeps exactly what is not confirmed. */
  predicate Confirmable(q: seq<Packet>, cs: nat) {
    (exists k :: 0 <= k < |q| && q[k].sn == cs) || (forall k :: 0 <= k < |q| ==> q[k].sn <= cs)
  }

  /** If p makes c remove PDUs, it confirms a queued number or everything queued. */
  predicate RemovesExactly(c: Conn, p: Packet) {
    Removes(c, p) ==> Confirmable(c.fifoRetr, p.cs)
  }

  /** Or the receiver has buffered everything anyway. */
  predicate RemovesSafely(c: Conn, p: Packet, r: Conn) {
    Removes(c, p) ==> Confirmable(c.fifoRetr, p.cs) || |r.log.accepted| == |c.log.batches|
  }

  /** If p is the heartbeat that ends the handshake, it is in sequence or no batch was sent before it. */
  predicate StartsSafely(c: Conn, p: Packet) {
    p.kind == Heartbeat && c.state == Start && Admitted(c, p) && CtsInSeq(c, p) ==> SnInSeq(c, p) || p.origin == 0
  }

  // ----- nothing is missing -----

  predicate Exactly(accepted: seq<Packet>) {
    forall k :: 0 <= k < |accepted| ==> accepted[k].origin == k
  }

  /**
    The receiver buffered the first batches, all the others are still queued, the expected PDU
    carries the next of them, and of the queue only what was buffered is confirmed.
   */
  predicate Whole(s: Tx, i: nat, r: Rx) {
    && Exactly(r.accepted)
    && QueueStart(s) <= |r.accepted|
    && (NextSn(s, i) == r.snR ==> NextOrigin(s, i) == |r.accepted|)
    && (forall k :: 0 <= k < |s.fifo| && s.fifo[k].sn <= r.csT ==> s.fifo[k].origin < |r.accepted|)
  }

  /** What is confirmable stays so without its first PDU, unless that one is the number confirmed. */
  lemma ConfirmableTail(q: seq<Packet>, cs: nat)
    requires Confirmable(q, cs) && q != [] && q[0].sn != cs
    ensures Confirmable(q[1..], cs)
  {
    var t := q[1..];
    if l :| 0 <= l < |q| && q[l].sn == cs {
      assert t[l - 1].sn == cs;
    }
  }

  /** The first PDU of a confirmable queue in order is confirmed. */
  lemma ConfirmableHead(q: seq<Packet>, cs: nat)
    requires Sorted(q) && Confirmable(q, cs) && q != []
    ensures q[0].sn <= cs
  {
  }

  /** An exact removal takes confirmed PDUs only. */
  lemma {:induction false} PopExactly(q: seq<Packet>, cs: nat) returns (k: nat)
    requires Sorted(q) && Confirmable(q, cs)
    ensures k <= |q| && PopConfirmed(q, cs) == q[k..]
    ensures forall l :: 0 <= l < k ==> q[l].sn <= cs
  {
    hide Confirmable;
    if q == [] {
      k := 0;
    } else if q[0].sn == cs {
      k := 1;
    } else {
      ConfirmableHead(q, cs);
      ConfirmableTail(q, cs);
      var t := q[1..];
      var k' := PopExactly(t, cs);
      k := k' + 1;
      assert forall l :: 0 < l < k ==> q[l] == t[l - 1];
    }
  }

  lemma DropKeepsWhole(s: Tx, cs: nat, i: nat, r: Rx)
    requires InOrder(s) && Follows(s, i, r) && Whole(s, i, r) && cs <= r.csT
    requires Confirmable(s.fifo, cs) || |r.accepted| == |s.batches|
    ensures Whole(Moved(s, Drop(cs)), i, r)
  {
    hide LogPart, Filed, QueueBehind, Resumed, Opens, Ahead, ConfirmsBelow;
    if Confirmable(s.fifo, cs) {
      var k := PopExactly(s.fifo, cs);
      assert k > 0 ==> s.fifo[k - 1].origin == QueueStart(s) + k - 1;
    } else {
      var k := PopConfirmedIsSuffix(s.fifo, cs);
    }
  }

  lemma SpeakingKeepsWhole(s: Tx, m: Move, i: nat, r: Rx)
    requires InOrder(s) && Follows(s, i, r) && Whole(s, i, r) && Possible(s, m) && !m.Drop? && (m.First? ==> s.snT > 0)
    ensures Whole(Moved(s, m), i, r)
  {
    hide Linked, Tagged, Filed, QueueBehind, Resumed, Opens, Ahead, ConfirmsBelow;
    assert r.snR <= NextSn(s, i) <= s.snT;
    if m.Again? {
      AnswerIsAppended(s, m);
    }
  }

  lemma ReactionKeepsWhole(s: Tx, i: nat, r: Rx, r': Rx)
    requires InOrder(s) && Follows(s, i, r) && Whole(s, i, r)
    requires i < |s.sent| && s.sent[i].kind != ConnReq && Reacts(r, s.sent[i], r')
    requires s.sent[i].kind == RetrResp ==> Ascending(s.sent, i + 1, HighWater(r))
    requires r.state == Start ==> r.accepted == []
    requires Ignores(r, r') || (s.sent[i].kind == Heartbeat && r.state == Start ==> s.sent[i].sn == r.snR || s.sent[i].origin == 0)
    ensures Whole(s, i + 1, r')
  {
    if s.sent[i].kind == Heartbeat && s.sent[i].origin == 0 {
      forall k | 0 <= k < |s.fifo| ensures s.fifo[k].sn > s.sent[i].sn {
        QueuedBehindNone(s, i, k);
      }
    }
  }

  // ----- along every guarded run -----

  predicate Sure(s: Conn, i: nat, r: Conn) {
    Way(s, i, r) && Whole(TxOf(s), i, RxOf(r))
  }

  lemma ArrivalKeepsSure(c: Conn, p: Packet, env: Env, i: nat, r: Conn)
    requires Sure(c, i, r) && p.kind != ConnReq && p.cs <= r.csT && RemovesSafely(c, p, r)
    ensures Sure(Receive(c, p, env), i, r)
  {
    hide InOrder, Follows, Whole, Possible, Moved, Receive, Removes, Confirmable;
    var inv := (s: Tx) => InOrder(s) && Follows(s, i, RxOf(r)) && Whole(s, i, RxOf(r));
    forall s, m | inv(s) && Possible(s, m) && Provoked(c, p, s, m) ensures inv(Moved(s, m)) {
      MoveKeepsLog(s, m);
      MoveKeepsFollows(s, m, i, RxOf(r));
      if m.Drop? {
        DropKeepsWhole(s, m.cs, i, RxOf(r));
      } else {
        SpeakingKeepsWhole(s, m, i, RxOf(r));
      }
    }
    ReceiveMoves(inv, inv, c, p, env);
  }

  lemma LocalKeepsSure(c: Conn, e: Local, now: nat, i: nat, r: Conn)
    requires Sure(c, i, r) && Ready(c)
    ensures Sure(LocalStep(c, e, now), i, r)
  {
    hide InOrder, Follows, Whole, Possible, Moved, LocalStep;
    var inv := (s: Tx) => InOrder(s) && Follows(s, i, RxOf(r)) && Whole(s, i, RxOf(r));
    forall s, m | inv(s) && Possible(s, m) && (m.Say? || (m.First? && s.snT > 0)) ensures inv(Moved(s, m)) {
      MoveKeepsLog(s, m);
      MoveKeepsFollows(s, m, i, RxOf(r));
      SpeakingKeepsWhole(s, m, i, RxOf(r));
    }
    LocalMoves(inv, true, c, e, now);
  }

  lemma ArrivalIsSure(s: Conn, i: nat, c: Conn, env: Env, j: nat)
    requires Sure(s, i, c) && i < |s.log.sent| && s.log.sent[i].kind != ConnReq
    requires Direction(TxOf(s), i, RxOf(c), j) && StartsSafely(c, s.log.sent[i])
    ensures Sure(s, i + 1, Receive(c, s.log.sent[i], env))
  {
    var p := s.log.sent[i];
    assert p.kind == RetrResp ==> Ascending(s.log.sent, i + 1, HighWater(RxOf(c)));
    assert c.state == Start ==> c.log.accepted == [];
    hide InOrder, Follows, Receive, Reacts, Direction, Admitted, CtsInSeq, Whole, Ignores;
    ArrivalIsFollowed(s, i, c, env);
    ReceiveReacts(c, p, env);
    if p.kind == Heartbeat && !Admitted(c, p) {
      RejectedIsIgnored(c, p, env);
    } else if p.kind == Heartbeat && c.state == Start && !CtsInSeq(c, p) {
      UntimelyIsIgnored(c, p, env);
    }
    ReactionKeepsWhole(TxOf(s), i, RxOf(c), RxOf(Receive(c, p, env)));
  }

  lemma LossIsSure(s: Conn, i: nat, c: Conn)
    requires Sure(s, i, c) && i < |s.log.sent|
    ensures Sure(s, i + 1, c)
  {
  }

  lemma LocalIsSure(s: Conn, i: nat, c: Conn, e: Local, now: nat)
    requires Sure(s, i, c)
    ensures Sure(s, i, LocalStep(c, e, now))
  {
    hide InOrder, LocalStep, Follows;
    LocalIsFollowed(s, i, c, e, now);
    LocalReacts(c, e, now);
  }

  lemma RequestIsSure(n: Net, env: Env)
    requires Inv(n) && NetWay(n) && n.atB == 0
    ensures
      var n' := Next(n, BReceives(env));
      Whole(TxOf(n'.a), n'.atB, RxOf(n'.b)) && Whole(TxOf(n'.b), n'.atA, RxOf(n'.a))
  {
    hide Direction, InOrder, Follows, Receive;
    var b' := Receive(n.b, n.a.log.sent[0], env);
    RequestAsks(n.b, n.a.log.sent[0], env);
    AskedFollows(TxOf(n.a), n.b, b');
    SecondOrigin(TxOf(n.a));
  }

  lemma SecondOrigin(s: Tx)
    requires InOrder(s) && s.sent != [] && s.sent[0].kind == ConnReq
    ensures NextOrigin(s, 1) == 0
  {
  }

  /** What a step must do to keep a route complete. */
  predicate Safe(n: Net, st: Step, w: Route) {
    && Enabled(n, st)
    && (ReachesSender(st, w) ==> RemovesSafely(Sender(n, w), Handed(n, st), Receiver(n, w)))
    && (ReachesReceiver(st, w) ==> StartsSafely(Receiver(n, w), Handed(n, st)))
  }

  predicate SureOn(n: Net, w: Route) {
    Sure(Sender(n, w), Taken(n, w), Receiver(n, w))
  }

  lemma WayConfirms(s: Conn, i: nat, r: Conn, m: nat)
    requires Way(s, i, r) && m < |r.log.sent|
    ensures r.log.sent[m].cs <= r.csT
  {
  }

  lemma NextSure(n: Net, st: Step, w: Route)
    requires Inv(n) && BothReady(n) && NetWay(n) && Safe(n, st, w) && SureOn(n, w)
    ensures SureOn(Next(n, st), w)
  {
    hide Direction, Way, Whole, Receive, LocalStep, RemovesSafely, StartsSafely;
    NextWay(n, st);
    var s, i, r, j := Sender(n, w), Taken(n, w), Receiver(n, w), TakenBack(n, w);
    if st.BReceives? && n.atB == 0 {
      RequestIsSure(n, st.env);
    } else if ReachesSender(st, w) {
      WayConfirms(s, i, r, j);
      ArrivalKeepsSure(s, Handed(n, st), st.env, i, r);
    } else if ReachesReceiver(st, w) {
      ArrivalIsSure(s, i, r, st.env, j);
    } else if (w.ToB? && st.BLoses?) || (w.ToA? && st.ALoses?) {
      LossIsSure(s, i, r);
    } else if (w.ToB? && st.ALocal?) || (w.ToA? && st.BLocal?) {
      LocalKeepsSure(s, st.local, st.now, i, r);
    } else if st.ALocal? || st.BLocal? {
      LocalIsSure(s, i, r, st.local, st.now);
    }
  }

  lemma InitSure(n: Net, w: Route)
    requires Init(n)
    ensures SureOn(n, w)
  {
    InitWay(n);
  }

  lemma {:induction false} RunSure(run: seq<Net>, steps: seq<Step>, k: nat, w: Route)
    requires IsRun(run, steps) && k < |run| && forall j :: 0 <= j < k ==> Safe(run[j], steps[j], w)
    ensures SureOn(run[k], w)
  {
    hide SureOn, NetWay, Inv, Init, Next, BothReady, Safe;
    if k == 0 {
      InitSure(run[0], w);
    } else {
      RunSure(run, steps, k - 1, w);
      RunInv(run, steps, k - 1);
      RunReady(run, steps, k - 1);
      RunWay(run, steps, k - 1);
      NextSure(run[k - 1], steps[k - 1], w);
    }
  }

  // ----- the client never sees a heartbeat before the response -----

  predicate Dialing(n: Net) {
    n.a.state == Start ==>
      && |n.a.log.sent| == 1 && n.a.fifoSend == [] && n.b.fifoSend == []
      && (n.b.state == Start || n.b.state == Closed)
      && forall m :: 0 <= m < |n.b.log.sent| ==> n.b.log.sent[m].kind == ConnResp || n.b.log.sent[m].kind == DiscReq
  }

  lemma StaysInStart(c: Conn, p: Packet, env: Env)
    requires p.kind == ConnResp || p.kind == DiscReq
    ensures Receive(c, p, env).state == Start ==>
              c.state == Start && Receive(c, p, env).log == c.log && Receive(c, p, env).fifoSend == c.fifoSend
  {
  }

  lemma NeverBackToStart(c: Conn, p: Packet, env: Env)
    requires p.kind != ConnReq && c.state != Start
    ensures Receive(c, p, env).state != Start
  {
    hide RemoveConfirmed, Respond;
    RemoveConfirmedQuiet(UpdateConfirmed(UpdateConnection(AddAppMessages(c, p), p), p), env.now);
    RemoveConfirmedQuiet(UpdateConfirmed(UpdateConnection(c, p), p), env.now);
    var c1 := if c.state == RetrRunning then Close(c, env.now) else c;
    RespondQuiet(UpdateConnection(c1, p), p, env.now);
    RespondQuiet(c, p, env.now);
  }

  lemma LocalNeverStarts(c: Conn, e: Local, now: nat)
    requires c.state != Start
    ensures LocalStep(c, e, now).state != Start
  {
    hide DataSend, Enqueue;
    DataSendQuiet(c, now);
    if e.AppSends? {
      EnqueueQuiet(c, e.messages, now);
    }
  }

  lemma RequestDials(n: Net, env: Env)
    requires Inv(n) && Dialing(n) && n.atB == 0
    ensures Dialing(Next(n, BReceives(env)))
  {
    hide Direction;
  }

  lemma NextDialing(n: Net, st: Step)
    requires Inv(n) && Dialing(n) && Enabled(n, st)
    ensures Dialing(Next(n, st))
  {
    hide Direction, Receive, LocalStep;
    match st {
      case AReceives(env) =>
        if n.a.state == Start {
          StaysInStart(n.a, n.b.log.sent[n.atA], env);
        } else {
          NeverBackToStart(n.a, n.b.log.sent[n.atA], env);
        }
      case BReceives(env) =>
        if n.atB == 0 {
          RequestDials(n, env);
        }
      case ALocal(e, now) =>
        if n.a.state == Start {
          SilentLocal(n.a, e, now);
        } else {
          LocalNeverStarts(n.a, e, now);
        }
      case BLocal(e, now) =>
        if n.a.state == Start {
          SilentLocal(n.b, e, now);
        }
      case _ =>
    }
  }

  lemma {:induction false} RunDialing(run: seq<Net>, steps: seq<Step>, k: nat)
    requires IsRun(run, steps) && k < |run|
    ensures Dialing(run[k])
    ensures k < |steps| && steps[k].AReceives? ==> StartsSafely(run[k].a, run[k].b.log.sent[run[k].atA])
  {
    hide Inv, Next;
    if k > 0 {
      RunDialing(run, steps, k - 1);
      RunInv(run, steps, k - 1);
      NextDialing(run[k - 1], steps[k - 1]);
    }
  }

  // ----- the theorems -----

  /** Batch o of the sender was buffered by the receiver or is still queued. */
  predicate Held(s: Conn, r: Conn, o: nat) {
    || (exists k :: 0 <= k < |r.log.accepted| && r.log.accepted[k].origin == o)
    || (exists k :: 0 <= k < |s.fifoRetr| && s.fifoRetr[k].origin == o)
  }

  predicate NothingMissing(s: Conn, r: Conn) {
    forall o :: 0 <= o < |s.log.batches| ==> Held(s, r, o)
  }

  predicate ExactlyFirst(s: Conn, i: nat, r: Conn) {
    && Payloads(r.log.accepted) <= s.log.batches
    && NothingMissing(s, r)
    && (i == |s.log.sent| && r.snR == s.snT ==> Payloads(r.log.accepted) == s.log.batches)
  }

  lemma SureIsExact(s: Conn, i: nat, r: Conn)
    requires Sure(s, i, r) && InOrderSubsequence(r.log.accepted, s.log.batches)
    ensures ExactlyFirst(s, i, r) && |r.log.accepted| <= |s.log.batches|
  {
    hide LogPart, Filed, QueueBehind, Resumed, Opens, InRetransmission, ConfirmsBelow;
    assert Payloads(r.log.accepted) <= s.log.batches;
    forall o | 0 <= o < |s.log.batches| ensures Held(s, r, o) {
      if o < |r.log.accepted| {
        assert r.log.accepted[o].origin == o;
      } else {
        assert s.fifoRetr[o - QueueStart(TxOf(s))].origin == o;
      }
    }
  }

  /** So far every removal at the sender was exact. */
  ghost predicate RemovalsExact(run: seq<Net>, steps: seq<Step>, k: nat, w: Route)
    requires IsRun(run, steps) && k <= |steps|
  {
    forall j :: 0 <= j < k && ReachesSender(steps[j], w) ==> RemovesExactly(Sender(run[j], w), Handed(run[j], steps[j]))
  }

  /** So far no heartbeat out of sequence ended the server's handshake behind a batch. */
  ghost predicate Punctual(run: seq<Net>, steps: seq<Step>, k: nat)
    requires IsRun(run, steps) && k <= |steps|
  {
    forall j :: 0 <= j < k && steps[j].BReceives? ==> StartsSafely(run[j].b, Handed(run[j], steps[j]))
  }

  /** The client needs no such condition. */
  lemma HandshakesSafe(run: seq<Net>, steps: seq<Step>, k: nat, w: Route, j: nat)
    requires IsRun(run, steps) && j < k <= |steps| && (w.ToB? ==> Punctual(run, steps, k)) && ReachesReceiver(steps[j], w)
    ensures StartsSafely(Receiver(run[j], w), Handed(run[j], steps[j]))
  {
    hide StartsSafely, Init, Next;
    RunDialing(run, steps, j);
  }

  /**
    As long as every removal at the sender found the confirmed number queued or everything queued
    confirmed, and the heartbeat that ended the server's handshake was in sequence or counted no batch,
    which matters on the way to the server only: the receiver buffered exactly the first batches, every other batch is
    still queued, and all were buffered once the receiver has caught up.
   */
  lemma CompleteWhileExact(run: seq<Net>, steps: seq<Step>, k: nat, w: Route)
    requires IsRun(run, steps) && k < |run| && RemovalsExact(run, steps, k, w) && (w.ToB? ==> Punctual(run, steps, k))
    ensures ExactlyFirst(Sender(run[k], w), Taken(run[k], w), Receiver(run[k], w))
  {
    hide ExactlyFirst, Sure, InOrderSubsequence, Removes, Confirmable, StartsSafely, Init, Next, Punctual;
    forall j | 0 <= j < k ensures Safe(run[j], steps[j], w) {
      if ReachesReceiver(steps[j], w) {
        HandshakesSafe(run, steps, k, w, j);
      }
    }
    RunSure(run, steps, k, w);
    BufferedInOrderWithoutDuplicates(run, steps, k);
    SureIsExact(Sender(run[k], w), Taken(run[k], w), Receiver(run[k], w));
  }
}

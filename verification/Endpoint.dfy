/**
  One endpoint facing an arbitrary peer: what every operation keeps during a first session, whatever
  PDUs arrive.  Numbers, confirmations and queues stay consistent, and no message is lost or made up
  between the application and the data PDUs.
 */
module Endpoint {
  import opened Packets
  import opened SafetyLayer
  import Runs
  import Moves

  // ----- events and runs -----

  datatype Event =
    | Arrives(p: Packet, env: Env)
    | Happens(local: Local, now: nat)

  function Apply(c: Conn, e: Event): Conn {
    match e
    case Arrives(p, env) => Receive(c, p, env)
    case Happens(l, now) => LocalStep(c, l, now)
  }

  /** A connection request that opens a session finds the connection unused. */
  predicate FirstSession(c: Conn, e: Event) {
    e.Arrives? && e.p.kind == ConnReq && (c.state == Closed || c.state == Down) ==> c.log.sent == []
  }

  ghost predicate Begins(c: Conn) {
    (exists cfg: Config :: c == Fresh(cfg)) || (exists cfg: Config, now: nat :: c == Connected(Fresh(cfg), now))
  }

  ghost predicate IsHistory(cs: seq<Conn>, es: seq<Event>) {
    && |cs| == |es| + 1
    && Begins(cs[0])
    && (forall k :: 0 <= k < |es| ==> FirstSession(cs[k], es[k]) && cs[k + 1] == Apply(cs[k], es[k]))
  }

  // ----- the invariant -----

  /** The part of a connection on which the invariant depends. */
  datatype Books = Books(
    cfg: Config, state: State, snT: nat, snI: nat, csR: nat,
    fifoSend: seq<Message>, fifoRetr: seq<Packet>, fifoRecv: seq<Message>, log: Log)

  function BooksOf(c: Conn): Books {
    Books(c.cfg, c.state, c.snT, c.snI, c.csR, c.fifoSend, c.fifoRetr, c.fifoRecv, c.log)
  }

  /** Messages submitted are those already packed into batches, followed by those still queued. */
  predicate Conserved(b: Books) {
    && b.log.submitted == Flatten(b.log.batches) + b.fifoSend
    && |b.fifoSend| <= 2 * b.cfg.maxPacket
    && (forall k :: 0 <= k < |b.log.batches| ==> 1 <= |b.log.batches[k]| <= b.cfg.maxPacket)
  }

  /** Messages of accepted PDUs were pushed in order, apart from those a full queue refused. */
  predicate Buffered(b: Books) {
    && b.log.delivered == b.log.fetched + b.fifoRecv
    && |b.fifoRecv| <= b.cfg.recvQueueSize
    && |Flatten(Payloads(b.log.accepted))| == |b.log.delivered| + b.log.dropped
    && Subsequence(b.log.delivered, Flatten(Payloads(b.log.accepted)))
    && (b.log.dropped == 0 ==> b.log.delivered == Flatten(Payloads(b.log.accepted)))
  }

  function NextSn(sent: seq<Packet>, snT: nat, m: nat): nat {
    if m < |sent| then sent[m].sn else snT
  }

  /** Every PDU but a disconnection request takes the next number, starting from the initial one. */
  predicate Consecutive(sent: seq<Packet>, snI: nat, snT: nat) {
    && NextSn(sent, snT, 0) == snI
    && (forall m :: 0 <= m < |sent| ==>
          NextSn(sent, snT, m + 1) == sent[m].sn + (if sent[m].kind.DiscReq? then 0 else 1))
  }

  predicate QueueOrdered(fifo: seq<Packet>, snT: nat) {
    && (forall k :: 0 <= k < |fifo| ==> fifo[k].sn < snT)
    && (forall k, l :: 0 <= k < l < |fifo| ==> fifo[k].sn < fifo[l].sn)
  }

  /** A connection that never sent a PDU. */
  predicate Unused(b: Books) {
    && b.state == Closed && b.log == EMPTY_LOG && b.csR <= b.snT
    && b.fifoSend == [] && b.fifoRetr == [] && b.fifoRecv == []
  }

  predicate Numbered(b: Books) {
    && Consecutive(b.log.sent, b.snI, b.snT)
    && QueueOrdered(b.fifoRetr, b.snT) && |b.fifoRetr| <= b.cfg.retrQueueSize
    && (if b.log.sent == [] then Unused(b) else b.csR < b.snT)
    && (b.state == Start ==> b.log.accepted == [])
  }

  predicate Balanced(b: Books) {
    Conserved(b) && Buffered(b) && Numbered(b)
  }

  predicate Sound(c: Conn) {
    Balanced(BooksOf(c))
  }

  /** Nothing is confirmed before something was sent. */
  predicate Unconfirmed(c: Conn) {
    c.log.sent == [] ==> c.csR == 0
  }

  // ----- subsequences -----

  predicate Subsequence<T(==)>(xs: seq<T>, ys: seq<T>) {
    if xs == [] then true
    else if ys == [] then false
    else
      || (xs[|xs| - 1] == ys[|ys| - 1] && Subsequence(xs[..|xs| - 1], ys[..|ys| - 1]))
      || Subsequence(xs, ys[..|ys| - 1])
  }

  lemma {:induction false} SubsequenceRefl<T>(xs: seq<T>)
    ensures Subsequence(xs, xs)
  {
    if xs != [] {
      SubsequenceRefl(xs[..|xs| - 1]);
    }
  }

  lemma {:induction false} SubsequenceTrans<T>(xs: seq<T>, ys: seq<T>, zs: seq<T>)
    requires Subsequence(xs, ys) && Subsequence(ys, zs)
    ensures Subsequence(xs, zs)
    decreases |zs|
  {
    if xs != [] {
      var xs', ys', zs' := xs[..|xs| - 1], ys[..|ys| - 1], zs[..|zs| - 1];
      if Subsequence(ys, zs') {
        SubsequenceTrans(xs, ys, zs');
      } else if Subsequence(xs, ys') {
        SubsequenceTrans(xs, ys', zs');
      } else {
        SubsequenceTrans(xs', ys', zs');
      }
    }
  }

  lemma SubsequenceSnoc<T>(xs: seq<T>, ys: seq<T>, u: T)
    requires Subsequence(xs, ys)
    ensures Subsequence(xs, ys + [u]) && Subsequence(xs + [u], ys + [u])
  {
    assert (ys + [u])[..|ys|] == ys && (xs + [u])[..|xs|] == xs;
  }

  lemma {:induction false} SubsequenceOfLonger<T>(xs: seq<T>, ys: seq<T>, us: seq<T>)
    requires Subsequence(xs, ys)
    ensures Subsequence(xs, ys + us)
  {
    hide Subsequence;
    if us == [] {
      assert ys + us == ys;
    } else {
      var n := |us| - 1;
      SubsequenceOfLonger(xs, ys, us[..n]);
      SubsequenceSnoc(xs, ys + us[..n], us[n]);
      assert ys + us[..n] + [us[n]] == ys + us;
    }
  }

  lemma {:induction false} SubsequenceBoth<T>(xs: seq<T>, ys: seq<T>, us: seq<T>)
    requires Subsequence(xs, ys)
    ensures Subsequence(xs + us, ys + us)
  {
    hide Subsequence;
    if us == [] {
      assert xs + us == xs && ys + us == ys;
    } else {
      var n := |us| - 1;
      SubsequenceBoth(xs, ys, us[..n]);
      SubsequenceSnoc(xs + us[..n], ys + us[..n], us[n]);
      assert xs + us[..n] + [us[n]] == xs + us && ys + us[..n] + [us[n]] == ys + us;
    }
  }

  lemma SubsequenceExtend<T>(xs: seq<T>, ys: seq<T>, us: seq<T>, k: nat)
    requires Subsequence(xs, ys) && k <= |us|
    ensures Subsequence(xs + us[..k], ys + us)
  {
    hide Subsequence;
    SubsequenceBoth(xs, ys, us[..k]);
    SubsequenceOfLonger(xs + us[..k], ys + us[..k], us[k..]);
    assert ys + us[..k] + us[k..] == ys + us;
  }

  // ----- micro-steps -----

  lemma FlattenSnoc(bs: seq<seq<Message>>, b: seq<Message>)
    ensures Flatten(bs + [b]) == Flatten(bs) + b
  {
    assert (bs + [b])[..|bs|] == bs;
  }

  lemma AddAppMessagesBuffers(c: Conn, p: Packet)
    requires Buffered(BooksOf(c))
    ensures Buffered(BooksOf(AddAppMessages(c, p)))
  {
    var c' := AddAppMessages(c, p);
    var k := Min(|p.batch|, FreeRoom(c.cfg.recvQueueSize, |c.fifoRecv|));
    FlattenSnoc(Payloads(c.log.accepted), p.batch);
    assert Payloads(c'.log.accepted) == Payloads(c.log.accepted) + [p.batch];
    SubsequenceExtend(c.log.delivered, Flatten(Payloads(c.log.accepted)), p.batch, k);
  }

  lemma DataSendConserves(c: Conn, now: nat)
    requires Conserved(BooksOf(c))
    ensures Conserved(BooksOf(DataSend(c, now)))
  {
    hide Flatten;
    if DataSend(c, now) != c {
      MoveBatch(c.log.batches, c.fifoSend, BatchSize(c));
    }
  }

  lemma MoveBatch(bs: seq<seq<Message>>, queue: seq<Message>, n: nat)
    requires n <= |queue|
    ensures Flatten(bs + [queue[..n]]) + queue[n..] == Flatten(bs) + queue
  {
    FlattenSnoc(bs, queue[..n]);
    assert queue == queue[..n] + queue[n..];
  }

  lemma ConsecutiveSnoc(sent: seq<Packet>, snI: nat, snT: nat, p: Packet)
    requires Consecutive(sent, snI, snT) && p.sn == snT
    ensures Consecutive(sent + [p], snI, snT + (if p.kind.DiscReq? then 0 else 1))
  {
  }

  lemma {:induction false} ConsecutiveBurst(sent: seq<Packet>, snI: nat, snT: nat, b: seq<Packet>)
    requires Consecutive(sent, snI, snT)
    requires forall k :: 0 <= k < |b| ==> b[k].sn == snT + k && !b[k].kind.DiscReq?
    ensures Consecutive(sent + b, snI, snT + |b|)
  {
    hide Consecutive;
    if b == [] {
      assert sent + b == sent;
    } else {
      var b', last := b[..|b| - 1], b[|b| - 1];
      ConsecutiveBurst(sent, snI, snT, b');
      ConsecutiveSnoc(sent + b', snI, snT + |b'|, last);
      assert sent + b == sent + b' + [last];
    }
  }

  lemma DataSendSound(c: Conn, now: nat)
    requires Sound(c)
    ensures Sound(DataSend(c, now)) && c.log.sent <= DataSend(c, now).log.sent
    ensures DataSend(c, now).csR == c.csR
  {
    DataSendConserves(c, now);
    ConsecutiveSnoc(c.log.sent, c.snI, c.snT, DataPdu(c, now));
  }

  lemma PopSound(c: Conn, cs: nat)
    requires Sound(c)
    ensures Sound(c.(fifoRetr := PopConfirmed(c.fifoRetr, cs)))
  {
    var k := Runs.PopConfirmedIsSuffix(c.fifoRetr, cs);
  }

  lemma RemoveConfirmedSound(c: Conn, now: nat)
    requires Sound(c)
    ensures Sound(RemoveConfirmed(c, now)) && RemoveConfirmed(c, now).csR == c.csR
    ensures c.log.sent <= RemoveConfirmed(c, now).log.sent && c.snT <= RemoveConfirmed(c, now).snT
  {
    hide Balanced;
    PopSound(c, c.csR);
    DataSendSound(c.(fifoRetr := PopConfirmed(c.fifoRetr, c.csR)), now);
  }

  lemma ControlSound(c: Conn, p: Packet)
    requires Sound(c) && p.sn == c.snT && !p.kind.DiscReq?
    ensures Sound(EmitNumbered(c, p))
  {
    ConsecutiveSnoc(c.log.sent, c.snI, c.snT, p);
  }

  lemma DiscReqSound(c: Conn, now: nat)
    requires Sound(c) && c.log.sent != []
    ensures Sound(SendDiscReq(c, now).(state := Closed))
  {
    ConsecutiveSnoc(c.log.sent, c.snI, c.snT, Control(c, DiscReq, now));
  }

  lemma CloseSound(c: Conn, now: nat)
    requires Sound(c)
    ensures Sound(Close(c, now)) && Close(c, now).csR == c.csR && c.log.sent <= Close(c, now).log.sent
  {
    if c.log.sent != [] {
      DiscReqSound(Reset(c), now);
    }
  }

  lemma BurstNumbers(c: Conn, now: nat)
    ensures
      var b := Burst(c, now);
      && QueueOrdered(b, c.snT + |b|)
      && forall k :: 0 <= k < |b| ==> b[k].sn == c.snT + k && !b[k].kind.DiscReq?
  {
    var b := Burst(c, now);
    assert forall k :: 0 <= k < |b| ==> b[k] == Renumbered(c, k, now);
  }

  lemma RetransmitSound(c: Conn, now: nat)
    requires Sound(c) && c.log.sent != []
    ensures Sound(Retransmit(c, now)) && Retransmit(c, now).csR == c.csR
  {
    hide Flatten, Subsequence, Consecutive, QueueOrdered;
    var b := Burst(c, now);
    BurstNumbers(c, now);
    ConsecutiveBurst(c.log.sent, c.snI, c.snT, b);
    var c1 := c.(fifoRetr := b, snT := c.snT + |b|, log := c.log.(sent := c.log.sent + b));
    ControlSound(c1, Control(c1, Heartbeat, now));
  }

  lemma RespondSound(c: Conn, p: Packet, now: nat)
    requires Sound(c) && c.csR <= p.cs < c.snT
    ensures Sound(Respond(c, p, now)) && Respond(c, p, now).csR == p.cs
    ensures Respond(c, p, now).log.sent != [] && p.cs < Respond(c, p, now).snT
  {
    var c1 := c.(csR := p.cs);
    assert Sound(c1);
    RemoveConfirmedSound(c1, now);
    var c2 := RemoveConfirmed(c1, now);
    ControlSound(c2, Control(c2, RetrResp, now));
    RetransmitSound(SendRetrResp(c2, now), now);
  }

  // ----- every event keeps the invariant, and confirmations never go back -----

  predicate Confirms(c: Conn, p: Packet) {
    c.csR <= p.cs < c.snT
  }

  /** A valid PDU may move the confirmation forward and the state anywhere but to Start. */
  lemma MoveOn(b: Books, csR: nat, st: State)
    requires Balanced(b) && b.log.sent != [] && b.csR <= csR < b.snT && st != Start
    ensures Balanced(b.(csR := csR, state := st))
  {
  }

  lemma UsedUnlessClosed(c: Conn)
    requires Sound(c)
    ensures c.log.sent == [] ==> c.state == Closed
  {
  }

  lemma ResetSound(c: Conn)
    requires Sound(c)
    ensures Sound(Reset(c)) && Sound(c.(state := Closed))
  {
  }

  lemma AcceptSound(c: Conn, p: Packet)
    requires Sound(c) && c.log.sent != [] && c.state != Start
    ensures Sound(AddAppMessages(c, p))
  {
    AddAppMessagesBuffers(c, p);
  }

  lemma RequestSound(c: Conn, now: nat)
    requires Sound(c)
    ensures Sound(SendRetrReq(c, now).(state := RetrRequested))
  {
    ControlSound(c, Control(c, RetrReq, now));
  }

  lemma HandleDataSound(c: Conn, p: Packet, now: nat)
    requires Sound(c) && Confirms(c, p)
    ensures Sound(HandleData(c, p, now)) && HandleData(c, p, now).csR >= c.csR
  {
    hide Balanced, RemoveConfirmed;
    CloseSound(c, now);
    CloseSound(c.(errors := c.errors.(cs := c.errors.cs + 1)), now);
    UsedUnlessClosed(c);
    RequestSound(c.(errors := c.errors.(sn := c.errors.sn + 1)), now);
    if c.state == Up {
      AcceptSound(c, p);
      MoveOn(BooksOf(AddAppMessages(c, p)), p.cs, Up);
      RemoveConfirmedSound(UpdateConfirmed(UpdateConnection(AddAppMessages(c, p), p), p), now);
    }
  }

  lemma HandleRetrReqSound(c: Conn, p: Packet, now: nat)
    requires Sound(c) && Confirms(c, p)
    ensures Sound(HandleRetrReq(c, p, now)) && HandleRetrReq(c, p, now).csR >= c.csR
  {
    hide Balanced, Respond;
    CloseSound(c, now);
    var c1 := if c.state == RetrRunning then Close(c, now) else c;
    RespondSound(UpdateConnection(c1, p), p, now);
    RespondSound(c, p, now);
    MoveOn(BooksOf(Respond(c, p, now)), p.cs, RetrRequested);
  }

  lemma HandleRetrDataSound(c: Conn, p: Packet, now: nat)
    requires Sound(c) && Confirms(c, p)
    ensures Sound(HandleRetrData(c, p, now)) && HandleRetrData(c, p, now).csR >= c.csR
  {
    hide Balanced;
    UsedUnlessClosed(c);
    CloseSound(c, now);
    RequestSound(c, now);
    if c.state == RetrRunning {
      AcceptSound(c, p);
      MoveOn(BooksOf(AddAppMessages(c, p)), p.cs, RetrRunning);
    }
  }

  lemma HandleHeartbeatSound(c: Conn, p: Packet, now: nat)
    requires Sound(c) && Confirms(c, p)
    ensures Sound(HandleHeartbeat(c, p, now)) && HandleHeartbeat(c, p, now).csR >= c.csR
  {
    hide Balanced, RemoveConfirmed;
    UsedUnlessClosed(c);
    if c.state == Start {
      CloseSound(c, now);
      var c1 := if !SnInSeq(c, p) then Close(c, now) else c;
      CloseSound(c1, now);
      var c2 := if c1.role == Client then Close(c1, now) else c1;
      CloseSound(c2, now);
      MoveOn(BooksOf(c2), p.cs, Up);
    } else if c.state != Closed {
      CloseSound(c, now);
      MoveOn(BooksOf(c), c.csR, RetrRequested);
      MoveOn(BooksOf(c), p.cs, Up);
      var c1 := UpdateConfirmed(UpdateConnection(c, p), p);
      MoveOn(BooksOf(c), p.cs, c.state);
      RemoveConfirmedSound(c1, now);
      MoveOn(BooksOf(RemoveConfirmed(c1, now)), p.cs, Up);
    }
  }

  lemma CheckedSound(c: Conn, p: Packet, now: nat)
    requires Sound(c) && Confirms(c, p)
    ensures Sound(HandleChecked(c, p, now)) && HandleChecked(c, p, now).csR >= c.csR
  {
    hide Balanced, HandleData, HandleRetrReq, HandleHeartbeat, HandleRetrData;
    match p.kind {
      case RetrReq => HandleRetrReqSound(c, p, now);
      case Data => HandleDataSound(c, p, now);
      case RetrData => HandleRetrDataSound(c, p, now);
      case Heartbeat => HandleHeartbeatSound(c, p, now);
      case RetrResp =>
        UsedUnlessClosed(c);
        CloseSound(c, now);
        if c.state == RetrRequested {
          MoveOn(BooksOf(c), p.cs, RetrRunning);
        }
      case DiscReq => ResetSound(c);
      case _ =>
    }
  }

  /** A request that opens the session: nothing was sent, and the numbers start afresh. */
  lemma OpeningSound(c: Conn, p: Packet, now: nat)
    requires Sound(c) && c.log.sent == [] && c.state == Closed && p.cs == 0
    ensures
      var c1 := Reset(c).(role := Server, snT := c.cfg.initialSn, snI := c.cfg.initialSn, state := Down);
      var c2 := UpdateConfirmed(UpdateConnection(c1, p), p);
      Sound(EmitNumbered(c2, Control(c2, ConnResp, now).(cts := c2.ctsR)).(state := Start))
  {
  }

  lemma RejectedSound(c: Conn)
    requires Sound(c) && c.log.sent == [] && c.csR == 0
    ensures Sound(c.(snT := c.cfg.initialSn, snI := c.cfg.initialSn))
  {
  }

  lemma ConnReqSound(c: Conn, p: Packet, env: Env)
    requires Sound(c) && Unconfirmed(c) && FirstSession(c, Arrives(p, env)) && p.kind == ConnReq
    ensures Sound(HandleConnReq(c, p, env)) && HandleConnReq(c, p, env).csR >= c.csR
  {
    hide Balanced;
    CloseSound(c, env.now);
    UsedUnlessClosed(c);
    if c.log.sent == [] {
      RejectedSound(c);
      if p.cs == 0 {
        OpeningSound(c, p, env.now);
      }
    }
  }

  lemma ConnRespSound(c: Conn, p: Packet, env: Env)
    requires Sound(c) && p.kind == ConnResp
    ensures Sound(HandleConnResp(c, p, env)) && HandleConnResp(c, p, env).csR >= c.csR
  {
    CloseSound(c, env.now);
    if CheckPacket(c, p) && c.state == Start {
      MoveOn(BooksOf(c), p.cs, Up);
      var c1 := UpdateConnection(c, p).(csR := p.cs, state := Up);
      ControlSound(c1, Control(c1, Heartbeat, env.now));
    }
  }

  lemma ReceiveSound(c: Conn, p: Packet, env: Env)
    requires Sound(c) && Unconfirmed(c) && FirstSession(c, Arrives(p, env))
    ensures Sound(Receive(c, p, env)) && Receive(c, p, env).csR >= c.csR
  {
    hide Balanced, HandleChecked, HandleConnReq, HandleConnResp;
    match p.kind {
      case ConnReq => ConnReqSound(c, p, env);
      case ConnResp => ConnRespSound(c, p, env);
      case _ =>
        if CsValid(c, p) {
          CheckedSound(c, p, env.now);
        }
    }
  }

  lemma PushSound(c: Conn, m: Message)
    requires Sound(c) && c.log.sent != [] && !SendQueueFull(c)
    ensures Sound(c.(fifoSend := c.fifoSend + [m], log := c.log.(submitted := c.log.submitted + [m])))
  {
    assert Flatten(c.log.batches) + c.fifoSend + [m] == Flatten(c.log.batches) + (c.fifoSend + [m]);
  }

  lemma {:induction false} EnqueueSound(c: Conn, ms: seq<Message>, now: nat)
    requires Sound(c) && c.log.sent != []
    ensures Sound(Enqueue(c, ms, now)) && Enqueue(c, ms, now).csR == c.csR
    decreases |ms|
  {
    hide Balanced, DataSend;
    if ms != [] {
      DataSendSound(c, now);
      var c' := if SendQueueFull(c) then DataSend(c, now) else c;
      if !SendQueueFull(c') {
        PushSound(c', ms[0]);
        EnqueueSound(c'.(fifoSend := c'.fifoSend + [ms[0]],
                     log := c'.log.(submitted := c'.log.submitted + [ms[0]])), ms[1..], now);
      }
    }
  }

  lemma FetchSound(c: Conn)
    requires Sound(c)
    ensures Sound(Fetch(c))
  {
    if c.fifoRecv != [] {
      assert c.log.fetched + [c.fifoRecv[0]] + c.fifoRecv[1..] == c.log.fetched + c.fifoRecv;
    }
  }

  lemma LocalSound(c: Conn, l: Local, now: nat)
    requires Sound(c)
    ensures Sound(LocalStep(c, l, now)) && LocalStep(c, l, now).csR >= c.csR
  {
    hide Balanced, DataSend, Enqueue;
    CloseSound(c, now);
    UsedUnlessClosed(c);
    match l {
      case AppSends(ms) =>
        if c.state != Closed {
          EnqueueSound(c, ms, now);
          DiscReqSound(c, now);
        }
      case AppFetches => FetchSound(c);
      case FlushTimer => DataSendSound(c, now);
      case HeartbeatTimer =>
        if c.state != Closed {
          ControlSound(c, Control(c, Heartbeat, now));
        }
      case TransportsLost => ResetSound(c);
      case _ =>
    }
  }

  lemma UnusedReceives(c: Conn, p: Packet, env: Env)
    requires Sound(c) && c.log.sent == [] && c.csR == 0
    ensures Unconfirmed(Receive(c, p, env))
  {
    UsedUnlessClosed(c);
  }

  lemma UnusedLocal(c: Conn, l: Local, now: nat)
    requires Sound(c) && c.log.sent == [] && c.csR == 0
    ensures Unconfirmed(LocalStep(c, l, now))
  {
    UsedUnlessClosed(c);
  }

  lemma ApplySound(c: Conn, e: Event)
    requires Sound(c) && Unconfirmed(c) && FirstSession(c, e)
    ensures Sound(Apply(c, e)) && Unconfirmed(Apply(c, e)) && Apply(c, e).csR >= c.csR
  {
    hide Balanced, Receive, LocalStep;
    match e {
      case Arrives(p, env) => ReceiveSound(c, p, env); ReceiveGrows(c, p, env);
        if c.log.sent == [] {
          UnusedReceives(c, p, env);
        }
      case Happens(l, now) => LocalSound(c, l, now); LocalGrows(c, l, now);
        if c.log.sent == [] {
          UnusedLocal(c, l, now);
        }
    }
  }

  lemma ReceiveGrows(c: Conn, p: Packet, env: Env)
    ensures c.log.sent <= Receive(c, p, env).log.sent
  {
    Moves.ReceiveNoConnReq(c, p, env);
  }

  lemma LocalGrows(c: Conn, l: Local, now: nat)
    ensures c.log.sent <= LocalStep(c, l, now).log.sent
  {
    Moves.LocalNoConnReq(c, l, now);
  }

  // ----- theorems over every history -----

  lemma BeginSound(c: Conn)
    requires Begins(c)
    ensures Sound(c) && Unconfirmed(c)
  {
    assert c.log.accepted == [] && c.log.batches == [] && c.csR == 0;
    assert Payloads(c.log.accepted) == [];
  }

  lemma {:induction false} HistorySound(cs: seq<Conn>, es: seq<Event>, k: nat)
    requires IsHistory(cs, es) && k < |cs|
    ensures Sound(cs[k]) && Unconfirmed(cs[k])
  {
    hide Balanced, Apply, Begins;
    if k == 0 {
      BeginSound(cs[0]);
    } else {
      HistorySound(cs, es, k - 1);
      ApplySound(cs[k - 1], es[k - 1]);
    }
  }

  /** The confirmed number never goes back and stays below the next number to send. */
  lemma {:induction false} ConfirmationNeverDecreases(cs: seq<Conn>, es: seq<Event>, j: nat, k: nat)
    requires IsHistory(cs, es) && j <= k < |cs|
    ensures cs[j].csR <= cs[k].csR
    ensures cs[k].log.sent != [] ==> cs[k].csR < cs[k].snT
  {
    hide Apply, Begins, Conserved, Buffered, Consecutive, QueueOrdered;
    HistorySound(cs, es, k);
    if j < k {
      ConfirmationNeverDecreases(cs, es, j, k - 1);
      HistorySound(cs, es, k - 1);
      ApplySound(cs[k - 1], es[k - 1]);
    }
  }

  /** The retransmission queue is ordered by number, below the next number, and within its bound. */
  lemma QueueStaysOrdered(cs: seq<Conn>, es: seq<Event>, k: nat)
    requires IsHistory(cs, es) && k < |cs|
    ensures QueueOrdered(cs[k].fifoRetr, cs[k].snT) && |cs[k].fifoRetr| <= cs[k].cfg.retrQueueSize
  {
    HistorySound(cs, es, k);
  }

  /** How many of the PDUs take a sequence number. */
  function CountNumbered(sent: seq<Packet>): nat {
    if sent == [] then 0
    else CountNumbered(sent[..|sent| - 1]) + (if sent[|sent| - 1].kind.DiscReq? then 0 else 1)
  }

  lemma {:induction false} ConsecutiveCounts(sent: seq<Packet>, snI: nat, snT: nat, m: nat)
    requires Consecutive(sent, snI, snT) && m <= |sent|
    ensures NextSn(sent, snT, m) == snI + CountNumbered(sent[..m])
  {
    if m > 0 {
      ConsecutiveCounts(sent, snI, snT, m - 1);
      assert sent[..m][..m - 1] == sent[..m - 1];
    }
  }

  /** The m-th PDU carries the initial number plus the numbered PDUs before it: no gap, no repeat. */
  lemma NumbersHaveNoGaps(cs: seq<Conn>, es: seq<Event>, k: nat, m: nat)
    requires IsHistory(cs, es) && k < |cs| && m < |cs[k].log.sent|
    ensures cs[k].log.sent[m].sn == cs[k].snI + CountNumbered(cs[k].log.sent[..m])
    ensures cs[k].snT == cs[k].snI + CountNumbered(cs[k].log.sent)
  {
    var c := cs[k];
    HistorySound(cs, es, k);
    ConsecutiveCounts(c.log.sent, c.snI, c.snT, m);
    ConsecutiveCounts(c.log.sent, c.snI, c.snT, |c.log.sent|);
    assert c.log.sent[..|c.log.sent|] == c.log.sent;
  }

  /** Every message the application handed over is in a data PDU or still queued, in order, once. */
  lemma MessagesAreConserved(cs: seq<Conn>, es: seq<Event>, k: nat)
    requires IsHistory(cs, es) && k < |cs|
    ensures cs[k].log.submitted == Flatten(cs[k].log.batches) + cs[k].fifoSend
    ensures forall b :: 0 <= b < |cs[k].log.batches| ==> 1 <= |cs[k].log.batches[b]| <= cs[k].cfg.maxPacket
    ensures |cs[k].fifoSend| <= 2 * cs[k].cfg.maxPacket
  {
    HistorySound(cs, es, k);
  }

  // ----- accepted numbers ascend between two retransmission responses -----

  predicate Ascend(accepted: seq<Packet>, from: nat, snR: nat) {
    && from <= |accepted|
    && (forall k :: from <= k < |accepted| ==> accepted[k].sn < snR)
    && (forall k, l :: from <= k < l < |accepted| ==> accepted[k].sn < accepted[l].sn)
  }

  /** What was accepted stays, and its numbers still ascend. */
  predicate AscendsOn(c: Conn, c': Conn, from: nat) {
    c.log.accepted <= c'.log.accepted && Ascend(c'.log.accepted, from, c'.snR)
  }

  lemma DataAscends(c: Conn, p: Packet, now: nat, from: nat)
    requires Ascend(c.log.accepted, from, c.snR) && p.kind == Data && SnRangeValid(c, p)
    ensures AscendsOn(c, HandleData(c, p, now), from)
  {
    hide RemoveConfirmed, Ascend, Close, CtsInSeq;
    AscendLater(c.log.accepted, from, c.snR, p);
    AscendSnoc(c.log.accepted, from, c.snR, p);
    CloseAccepts(c, now);
    CloseAccepts(c.(errors := c.errors.(cs := c.errors.cs + 1)), now);
    Runs.RemoveConfirmedQuiet(UpdateConfirmed(UpdateConnection(AddAppMessages(c, p), p), p), now);
  }

  lemma RetrReqAscends(c: Conn, p: Packet, now: nat, from: nat)
    requires Ascend(c.log.accepted, from, c.snR) && p.kind == RetrReq && SnRangeValid(c, p)
    ensures AscendsOn(c, HandleRetrReq(c, p, now), from)
  {
    hide Respond, Ascend, Close;
    AscendLater(c.log.accepted, from, c.snR, p);
    CloseAccepts(c, now);
    var c1 := if c.state == RetrRunning then Close(c, now) else c;
    Runs.RespondQuiet(UpdateConnection(c1, p), p, now);
    Runs.RespondQuiet(c, p, now);
  }

  lemma HeartbeatAscends(c: Conn, p: Packet, now: nat, from: nat)
    requires Ascend(c.log.accepted, from, c.snR) && p.kind == Heartbeat && SnRangeValid(c, p)
    ensures AscendsOn(c, HandleHeartbeat(c, p, now), from)
  {
    hide RemoveConfirmed, Ascend, Close, CtsInSeq;
    AscendLater(c.log.accepted, from, c.snR, p);
    CloseAccepts(c, now);
    var c1 := if !SnInSeq(c, p) then Close(c, now) else c;
    CloseAccepts(c1, now);
    var c2 := if c1.role == Client then Close(c1, now) else c1;
    CloseAccepts(c2, now);
    Runs.RemoveConfirmedQuiet(UpdateConfirmed(UpdateConnection(c, p), p), now);
  }

  lemma CheckedAscends(c: Conn, p: Packet, now: nat, from: nat)
    requires Ascend(c.log.accepted, from, c.snR)
    requires p.kind != RetrResp && (SnRangeValid(c, p) || p.kind.ConnReq? || p.kind.ConnResp?)
    ensures AscendsOn(c, HandleChecked(c, p, now), from)
  {
    hide Ascend, Close, HandleData, HandleRetrReq, HandleHeartbeat;
    match p.kind {
      case Data => DataAscends(c, p, now, from);
      case RetrReq => RetrReqAscends(c, p, now, from);
      case Heartbeat => HeartbeatAscends(c, p, now, from);
      case RetrData =>
        AscendLater(c.log.accepted, from, c.snR, p);
        AscendSnoc(c.log.accepted, from, c.snR, p);
        CloseAccepts(c, now);
      case _ =>
    }
  }

  lemma CloseAccepts(c: Conn, now: nat)
    ensures Close(c, now).log.accepted == c.log.accepted && Close(c, now).snR == c.snR
  {
  }

  lemma ReceiveAscends(c: Conn, p: Packet, env: Env, from: nat)
    requires Ascend(c.log.accepted, from, c.snR) && (c.state == Start ==> c.log.accepted == [])
    requires FirstSession(c, Arrives(p, env)) && (c.log.sent == [] ==> c.log.accepted == [])
    requires p.kind != RetrResp
    ensures
      var c' := Receive(c, p, env);
      c.log.accepted <= c'.log.accepted && Ascend(c'.log.accepted, from, c'.snR)
  {
    hide HandleChecked, Ascend, Close, CheckPacket;
    AscendLater(c.log.accepted, from, c.snR, p);
    CloseAccepts(c, env.now);
    if p.kind == ConnReq {
      var c1 := Reset(c).(role := Server, snT := c.cfg.initialSn, snI := c.cfg.initialSn, state := Down);
      CloseAccepts(c1, env.now);
    } else if p.kind != ConnResp && SnRangeValid(c, p) {
      CheckedAscends(c, p, env.now, from);
    }
  }

  lemma AscendSnoc(accepted: seq<Packet>, from: nat, snR: nat, p: Packet)
    requires Ascend(accepted, from, snR)
    ensures p.sn >= snR ==> Ascend(accepted + [p], from, p.sn + 1) && Ascend(accepted, from, p.sn + 1)
  {
  }

  lemma AscendLater(accepted: seq<Packet>, from: nat, snR: nat, p: Packet)
    requires Ascend(accepted, from, snR)
    ensures p.sn >= snR ==> Ascend(accepted, from, p.sn + 1)
    ensures accepted == [] ==> Ascend(accepted, from, p.sn + 1)
  {
  }

  lemma LocalAscends(c: Conn, l: Local, now: nat)
    ensures LocalStep(c, l, now).log.accepted == c.log.accepted && LocalStep(c, l, now).snR == c.snR
  {
    Runs.DataSendQuiet(c, now);
    if l.AppSends? {
      Runs.EnqueueQuiet(c, l.messages, now);
    }
  }

  predicate IsResponse(e: Event) {
    e.Arrives? && e.p.kind == RetrResp
  }

  lemma ApplyAscends(c: Conn, e: Event, from: nat)
    requires Sound(c) && FirstSession(c, e) && !IsResponse(e) && Ascend(c.log.accepted, from, c.snR)
    ensures c.log.accepted <= Apply(c, e).log.accepted
    ensures Ascend(Apply(c, e).log.accepted, from, Apply(c, e).snR)
  {
    hide Ascend, Receive, LocalStep, Conserved, Buffered, Consecutive, QueueOrdered;
    match e {
      case Arrives(p, env) =>
        ReceiveAscends(c, p, env, from);
      case Happens(l, now) => LocalAscends(c, l, now);
    }
  }

  lemma AscendFromEnd(c: Conn)
    ensures Ascend(c.log.accepted, |c.log.accepted|, c.snR)
  {
  }

  /** Between two retransmission responses the numbers of accepted PDUs strictly increase. */
  lemma {:induction false} AcceptedNumbersAscend(cs: seq<Conn>, es: seq<Event>, j: nat, k: nat)
    requires IsHistory(cs, es) && j <= k < |cs|
    requires forall e :: j <= e < k ==> !IsResponse(es[e])
    ensures cs[j].log.accepted <= cs[k].log.accepted
    ensures Ascend(cs[k].log.accepted, |cs[j].log.accepted|, cs[k].snR)
  {
    hide Apply, Balanced, Begins, Ascend;
    AscendFromEnd(cs[j]);
    if j < k {
      AcceptedNumbersAscend(cs, es, j, k - 1);
      HistorySound(cs, es, k - 1);
      ApplyAscends(cs[k - 1], es[k - 1], |cs[j].log.accepted|);
    }
  }

  // ----- what removing confirmed PDUs really removes -----

  /** The PDUs that are not confirmed. */
  function Above(q: seq<Packet>, cs: nat): seq<Packet> {
    if q == [] then [] else if q[0].sn > cs then [q[0]] + Above(q[1..], cs) else Above(q[1..], cs)
  }

  lemma {:induction false} AboveAll(q: seq<Packet>, cs: nat)
    requires forall k :: 0 <= k < |q| ==> q[k].sn > cs
    ensures Above(q, cs) == q
  {
    if q != [] {
      AboveAll(q[1..], cs);
    }
  }

  /**
    The removal keeps exactly the unconfirmed PDUs if and only if the confirmed number is queued or
    everything queued is confirmed; otherwise it empties the queue.
   */
  lemma {:induction false} RemovalIsExact(q: seq<Packet>, cs: nat)
    requires forall k, l :: 0 <= k < l < |q| ==> q[k].sn < q[l].sn
    ensures PopConfirmed(q, cs) == Above(q, cs) <==>
            ((exists k :: 0 <= k < |q| && q[k].sn == cs) || (forall k :: 0 <= k < |q| ==> q[k].sn <= cs))
    ensures !(exists k :: 0 <= k < |q| && q[k].sn == cs) ==> PopConfirmed(q, cs) == []
  {
    if q != [] {
      var t := q[1..];
      assert forall k :: 0 <= k < |t| ==> t[k] == q[k + 1];
      RemovalIsExact(t, cs);
      if q[0].sn == cs {
        AboveAll(t, cs);
      } else if q[0].sn > cs {
        AboveAll(q, cs);
        assert forall k :: 0 <= k < |q| ==> q[k].sn > cs;
      } else {
        assert (exists k :: 0 <= k < |q| && q[k].sn == cs) <==> (exists k :: 0 <= k < |t| && t[k].sn == cs) by {
          if k :| 0 <= k < |q| && q[k].sn == cs {
            assert t[k - 1].sn == cs;
          }
        }
        assert (forall k :: 0 <= k < |q| ==> q[k].sn <= cs) <==> (forall k :: 0 <= k < |t| ==> t[k].sn <= cs);
      }
    }
  }

  /**
    Retransmission of n queued PDUs keeps their batches and order, gives them the next n numbers,
    sends them followed by one heartbeat and leaves as many PDUs queued as before.
   */
  lemma RetransmissionKeepsBatches(c: Conn, now: nat)
    ensures
      var c', n := Retransmit(c, now), |c.fifoRetr|;
      && Payloads(c'.fifoRetr) == Payloads(c.fifoRetr)
      && c'.snT == c.snT + n + 1
      && |c'.log.sent| == |c.log.sent| + n + 1 && c.log.sent <= c'.log.sent
      && (forall k :: 0 <= k < n ==>
            && c'.fifoRetr[k].sn == c.snT + k && c'.fifoRetr[k].kind == RetrData
            && c'.log.sent[|c.log.sent| + k] == c'.fifoRetr[k])
      && c'.log.sent[|c.log.sent| + n].kind == Heartbeat && c'.log.sent[|c.log.sent| + n].sn == c.snT + n
  {
    var c', b := Retransmit(c, now), Burst(c, now);
    assert forall k :: 0 <= k < |b| ==> b[k] == Renumbered(c, k, now);
    assert Payloads(b) == Payloads(c.fifoRetr);
    var last := c'.log.sent[|c.log.sent| + |b|];
    assert c'.log.sent == c.log.sent + b + [last];
  }

  // ----- where the state machine departs from what its states suggest, and exactly when -----

  /** A data PDU in sequence is confirmed to the peer without being buffered exactly in RetrRunning. */
  lemma ConfirmedButNotBuffered(c: Conn, p: Packet, env: Env)
    requires Admitted(c, p) && p.kind == Data && SnInSeq(c, p) && CtsInSeq(c, p)
    ensures
      var c' := Receive(c, p, env);
      c'.csT == p.sn && c'.snR == p.sn + 1 && c'.log.accepted == c.log.accepted <==> c.state == RetrRunning
  {
    hide RemoveConfirmed;
    CloseAccepts(c, env.now);
    Runs.RemoveConfirmedQuiet(UpdateConfirmed(UpdateConnection(AddAppMessages(c, p), p), p), env.now);
  }

  /** A gap starts the wait for a retransmission; it is asked for unless a heartbeat showed the gap. */
  lemma GapSeenByHeartbeatIsNotAskedFor(c: Conn, p: Packet, env: Env)
    requires p.kind == Data || p.kind == RetrData || p.kind == Heartbeat
    requires c.state != RetrRequested && Receive(c, p, env).state == RetrRequested
    ensures
      Receive(c, p, env).log.sent ==
      c.log.sent + if p.kind == Heartbeat then [] else [Control(c, RetrReq, env.now)]
  {
    hide RemoveConfirmed;
    Runs.RemoveConfirmedQuiet(UpdateConfirmed(UpdateConnection(AddAppMessages(c, p), p), p), env.now);
    Runs.RemoveConfirmedQuiet(UpdateConfirmed(UpdateConnection(c, p), p), env.now);
  }

  /** The handshake ends in Up although a disconnection request was sent: exactly when. */
  lemma UpAfterDisconnecting(c: Conn, p: Packet, env: Env)
    requires Admitted(c, p) && p.kind == Heartbeat && c.state == Start
    ensures
      var c' := Receive(c, p, env);
      c'.state == Up && c'.log.sent != c.log.sent <==> CtsInSeq(c, p) && (c.role == Client || !SnInSeq(c, p))
  {
  }

  /** A request in RetrRunning is answered behind the disconnection request that closed the connection. */
  lemma AnsweredAfterClosing(c: Conn, p: Packet, env: Env)
    requires Admitted(c, p) && p.kind == RetrReq && SnInSeq(c, p)
    ensures
      var c' := Receive(c, p, env);
      && c.log.sent < c'.log.sent && c'.log.sent[|c'.log.sent| - 1].kind == Heartbeat
      && (c.state == RetrRunning ==> c'.log.sent[|c.log.sent|].kind == DiscReq && c'.state == Closed)
      && (c.state != RetrRunning ==> c'.state == c.state)
  {
    hide RemoveConfirmed;
    var c1 := if c.state == RetrRunning then Close(c, env.now) else c;
    var c2 := UpdateConnection(c1, p).(csR := p.cs);
    Runs.RemoveConfirmedQuiet(c2, env.now);
    var c3 := SendRetrResp(RemoveConfirmed(c2, env.now), env.now);
    RetransmissionKeepsBatches(c3, env.now);
    assert Receive(c, p, env) == Retransmit(c3, env.now);
  }
}

/**
  The converse of completeness.  A removal that confirms neither a queued number nor everything queued
  gives up the next batch the receiver needs, and what is neither held nor under way never comes.
  A heartbeat that ends the handshake out of sequence skips every batch sent before it for good,
  because the number that the server confirms from then on covers them.
 */
module MissingBatches {
  import opened Packets
  import opened SafetyLayer
  import opened Runs
  import opened LossyRuns
  import opened Moves
  import opened SenderLog
  import opened Completeness
  import E = Endpoint

  /** What the queue holds starts with batch `from`, or behind it. */
  predicate StartsFrom(q: seq<Packet>, from: nat) {
    forall k :: 0 <= k < |q| ==> q[k].origin >= from
  }

  /** A removal is followed by a new batch at most. */
  lemma RemovalLeaves(d: Conn, now: nat, from: nat)
    requires StartsFrom(PopConfirmed(d.fifoRetr, d.csR), from) && from <= |d.log.batches|
    ensures StartsFrom(RemoveConfirmed(d, now).fifoRetr, from)
  {
  }

  lemma LeftByArrival(c: Conn, p: Packet, env: Env, from: nat)
    requires Removes(c, p) && StartsFrom(PopConfirmed(c.fifoRetr, p.cs), from) && from <= |c.log.batches|
    ensures StartsFrom(Receive(c, p, env).fifoRetr, from)
  {
    hide RemoveConfirmed, PopConfirmed;
    if p.kind == RetrReq {
      var c1 := if SnInSeq(c, p) then UpdateConnection(if c.state == RetrRunning then Close(c, env.now) else c, p) else c;
      RemovalLeaves(c1.(csR := p.cs), env.now, from);
      var e := SendRetrResp(RemoveConfirmed(c1.(csR := p.cs), env.now), env.now);
      assert Receive(c, p, env).fifoRetr == Burst(e, env.now);
    } else {
      RemovalLeaves(UpdateConfirmed(UpdateConnection(AddAppMessages(c, p), p), p), env.now, from);
      RemovalLeaves(UpdateConfirmed(UpdateConnection(c, p), p), env.now, from);
    }
  }

  /** The next batch that the receiver needs is no longer held once the guard fails. */
  lemma UnsafeRemovalMisses(c: Conn, p: Packet, env: Env, i: nat, r: Conn)
    requires Sure(c, i, r) && !RemovesSafely(c, p, r) && |r.log.accepted| <= |c.log.batches|
    ensures |r.log.accepted| < |c.log.batches| && !Held(Receive(c, p, env), r, |r.log.accepted|)
  {
    hide Receive, LogPart, Filed, QueueBehind, Resumed, Opens, Follows;
    E.RemovalIsExact(c.fifoRetr, p.cs);
    LeftByArrival(c, p, env, |c.log.batches|);
  }

  lemma ArrivalKeepsBatches(c: Conn, p: Packet, env: Env)
    requires p.kind != ConnReq
    ensures |c.log.batches| <= |Receive(c, p, env).log.batches|
  {
    hide Receive;
    var inv := (s: Tx) => |c.log.batches| <= |s.batches|;
    ReceiveMoves(inv, inv, c, p, env);
  }

  /** So far every removal at the sender was safe. */
  ghost predicate RemovalsSafe(run: seq<Net>, steps: seq<Step>, k: nat, w: Route)
    requires IsRun(run, steps) && k <= |steps|
  {
    forall j :: 0 <= j < k && ReachesSender(steps[j], w) ==>
      RemovesSafely(Sender(run[j], w), Handed(run[j], steps[j]), Receiver(run[j], w))
  }

  predicate NothingMissingOn(n: Net, w: Route) {
    NothingMissing(Sender(n, w), Receiver(n, w))
  }

  /**
    Exactly when: if no heartbeat ended the server's handshake out of sequence behind a batch, which
    matters on the way to the server only, every batch was at all times buffered by the receiver or queued by the sender if and only if
    every removal confirmed a queued number, or everything queued, or came when the receiver had
    buffered everything.
   */
  lemma {:induction false} KeptExactlyWhen(run: seq<Net>, steps: seq<Step>, k: nat, w: Route)
    requires IsRun(run, steps) && k < |run| && (w.ToB? ==> Punctual(run, steps, k))
    ensures (forall j :: 0 <= j <= k ==> NothingMissingOn(run[j], w)) <==> RemovalsSafe(run, steps, k, w)
  {
    hide NothingMissingOn, RemovesSafely, StartsSafely, Init, Next;
    if RemovalsSafe(run, steps, k, w) {
      forall j | 0 <= j <= k ensures NothingMissingOn(run[j], w) {
        SafeIsComplete(run, steps, j, w);
      }
    } else if k > 0 && forall j :: 0 <= j <= k ==> NothingMissingOn(run[j], w) {
      KeptExactlyWhen(run, steps, k - 1, w);
      UnsafeStepMisses(run, steps, k - 1, w);
    }
  }

  lemma SafeIsComplete(run: seq<Net>, steps: seq<Step>, k: nat, w: Route)
    requires IsRun(run, steps) && k < |run| && RemovalsSafe(run, steps, k, w) && (w.ToB? ==> Punctual(run, steps, k))
    ensures SureOn(run[k], w) && NothingMissingOn(run[k], w)
    ensures |Receiver(run[k], w).log.accepted| <= |Sender(run[k], w).log.batches|
  {
    hide NothingMissing, Sure, InOrderSubsequence, RemovesSafely, StartsSafely, Init, Next, Punctual;
    forall j | 0 <= j < k ensures Safe(run[j], steps[j], w) {
      if ReachesReceiver(steps[j], w) {
        HandshakesSafe(run, steps, k, w, j);
      }
    }
    RunSure(run, steps, k, w);
    BufferedInOrderWithoutDuplicates(run, steps, k);
    SureIsExact(Sender(run[k], w), Taken(run[k], w), Receiver(run[k], w));
  }

  /** The step is the first removal that is not safe. */
  ghost predicate FirstUnsafe(run: seq<Net>, steps: seq<Step>, k: nat, w: Route)
    requires IsRun(run, steps) && k < |steps|
  {
    && RemovalsSafe(run, steps, k, w) && (w.ToB? ==> Punctual(run, steps, k)) && ReachesSender(steps[k], w)
    && !RemovesSafely(Sender(run[k], w), Handed(run[k], steps[k]), Receiver(run[k], w))
  }

  lemma UnsafeStepMisses(run: seq<Net>, steps: seq<Step>, k: nat, w: Route)
    requires IsRun(run, steps) && k < |steps| && FirstUnsafe(run, steps, k, w)
    ensures
      var o, n := |Receiver(run[k], w).log.accepted|, run[k + 1];
      && o < |Sender(n, w).log.batches| && !Held(Sender(n, w), Receiver(n, w), o) && !NothingMissingOn(n, w)
  {
    hide Sure, Held, InOrderSubsequence, StartsSafely, Init, Receive, Confirmable, RemovalsSafe, Punctual;
    var n, env := run[k], steps[k].env;
    SafeIsComplete(run, steps, k, w);
    UnsafeRemovalMisses(Sender(n, w), Handed(n, steps[k]), env, Taken(n, w), Receiver(n, w));
    ArrivalKeepsBatches(Sender(n, w), Handed(n, steps[k]), env);
  }

  // ----- what is neither held nor under way never comes -----

  predicate Gone(s: Tx, i: nat, r: Rx, o: nat) {
    && o < |s.batches|
    && (forall k :: 0 <= k < |r.accepted| ==> r.accepted[k].origin != o)
    && (forall k :: 0 <= k < |s.fifo| ==> s.fifo[k].origin != o)
    && (forall m :: i <= m < |s.sent| && Bears(s.sent[m]) ==> s.sent[m].origin != o)
  }

  lemma MoveKeepsGone(s: Tx, m: Move, i: nat, r: Rx, o: nat)
    requires Gone(s, i, r, o) && i <= |s.sent| && Possible(s, m)
    ensures Gone(Moved(s, m), i, r, o)
  {
    match m {
      case Drop(cs) => var k := PopConfirmedIsSuffix(s.fifo, cs);
      case Again(_, b, _) => assert forall k :: 0 <= k < |b| ==> b[k].origin != o;
      case _ =>
    }
  }

  lemma SenderReceivesGone(c: Conn, p: Packet, env: Env, i: nat, r: Conn, o: nat)
    requires i <= |c.log.sent| && Gone(TxOf(c), i, RxOf(r), o) && p.kind != ConnReq
    ensures Gone(TxOf(Receive(c, p, env)), i, RxOf(r), o)
  {
    hide Gone, Receive, Possible, Moved;
    var inv := (s: Tx) => i <= |s.sent| && Gone(s, i, RxOf(r), o);
    forall s, m | inv(s) && Possible(s, m) ensures inv(Moved(s, m)) {
      MoveKeepsGone(s, m, i, RxOf(r), o);
      MovedGrows(s, m);
    }
    ReceiveMoves(inv, inv, c, p, env);
  }

  lemma SenderActsGone(c: Conn, e: Local, now: nat, i: nat, r: Conn, o: nat)
    requires i <= |c.log.sent| && Gone(TxOf(c), i, RxOf(r), o) && Ready(c)
    ensures Gone(TxOf(LocalStep(c, e, now)), i, RxOf(r), o)
  {
    hide Gone, LocalStep, Possible, Moved;
    var inv := (s: Tx) => i <= |s.sent| && Gone(s, i, RxOf(r), o);
    forall s, m | inv(s) && Possible(s, m) ensures inv(Moved(s, m)) {
      MoveKeepsGone(s, m, i, RxOf(r), o);
      MovedGrows(s, m);
    }
    LocalMoves(inv, true, c, e, now);
  }

  lemma ReceiverReceivesGone(s: Conn, i: nat, c: Conn, env: Env, o: nat)
    requires i < |s.log.sent| && s.log.sent[i].kind != ConnReq && Gone(TxOf(s), i, RxOf(c), o)
    ensures Gone(TxOf(s), i + 1, RxOf(Receive(c, s.log.sent[i], env)), o)
  {
    hide Receive, Reacts;
    ReceiveReacts(c, s.log.sent[i], env);
    ReactionTakes(RxOf(c), s.log.sent[i], RxOf(Receive(c, s.log.sent[i], env)));
  }

  lemma ReceiverActsGone(s: Conn, i: nat, c: Conn, e: Local, now: nat, o: nat)
    requires Gone(TxOf(s), i, RxOf(c), o)
    ensures Gone(TxOf(s), i, RxOf(LocalStep(c, e, now)), o)
  {
    hide LocalStep;
    LocalReacts(c, e, now);
  }

  lemma LossKeepsGone(s: Tx, i: nat, r: Rx, o: nat)
    requires Gone(s, i, r, o)
    ensures Gone(s, i + 1, r, o)
  {
  }

  predicate GoneOn(n: Net, w: Route, o: nat) {
    Gone(TxOf(Sender(n, w)), Taken(n, w), RxOf(Receiver(n, w)), o)
  }

  lemma NextKeepsGone(n: Net, st: Step, w: Route, o: nat)
    requires Inv(n) && BothReady(n) && Enabled(n, st) && GoneOn(n, w, o)
    ensures GoneOn(Next(n, st), w, o)
  {
    hide Direction, Receive, LocalStep;
    InvPosition(n);
    var s, i, r := Sender(n, w), Taken(n, w), Receiver(n, w);
    if ReachesSender(st, w) {
      SenderReceivesGone(s, Handed(n, st), st.env, i, r, o);
    } else if ReachesReceiver(st, w) {
      ReceiverReceivesGone(s, i, r, st.env, o);
    } else if (w.ToB? && st.BLoses?) || (w.ToA? && st.ALoses?) {
      LossKeepsGone(TxOf(s), i, RxOf(r), o);
    } else if (w.ToB? && st.ALocal?) || (w.ToA? && st.BLocal?) {
      SenderActsGone(s, st.local, st.now, i, r, o);
    } else if st.ALocal? || st.BLocal? {
      ReceiverActsGone(s, i, r, st.local, st.now, o);
    }
  }

  lemma InvPosition(n: Net)
    requires Inv(n)
    ensures n.atB <= |n.a.log.sent| && n.atA <= |n.b.log.sent|
    ensures n.a.log.batches != [] || n.b.log.batches != [] ==> n.atB > 0
  {
  }

  lemma MovedGrows(s: Tx, m: Move)
    ensures |s.sent| <= |Moved(s, m).sent|
  {
  }

  lemma ReactionTakes(r: Rx, p: Packet, r': Rx)
    requires Reacts(r, p, r')
    ensures r'.accepted == r.accepted || (r'.accepted == r.accepted + [p] && Bears(p))
  {
  }

  /** A batch that is neither buffered nor queued nor under way is never buffered. */
  lemma {:induction false} GoneForGood(run: seq<Net>, steps: seq<Step>, j: nat, k: nat, w: Route, o: nat)
    requires IsRun(run, steps) && j <= k < |run| && GoneOn(run[j], w, o)
    ensures GoneOn(run[k], w, o)
  {
    hide GoneOn, Inv, Init, Next, BothReady;
    if j < k {
      GoneForGood(run, steps, j, k - 1, w, o);
      RunInv(run, steps, k - 1);
      RunReady(run, steps, k - 1);
      NextKeepsGone(run[k - 1], steps[k - 1], w, o);
    }
  }

  /** One that is merely not held is gone as soon as the channel loses the rest. */
  lemma MissingCanBeLost(s: Conn, r: Conn, o: nat)
    requires o < |s.log.batches| && !Held(s, r, o)
    ensures Gone(TxOf(s), |s.log.sent|, RxOf(r), o)
  {
  }

  function LostStep(w: Route): Step {
    if w.ToB? then BLoses else ALoses
  }

  /** Losing the rest is a run. */
  lemma {:induction false} LosingTheRest(run: seq<Net>, steps: seq<Step>, w: Route) returns (run': seq<Net>, steps': seq<Step>)
    requires IsRun(run, steps) && Taken(run[|steps|], w) <= |Sender(run[|steps|], w).log.sent|
    ensures IsRun(run', steps') && run <= run' && steps <= steps'
    ensures
      var n, n' := run[|steps|], run'[|steps'|];
      Sender(n', w) == Sender(n, w) && Receiver(n', w) == Receiver(n, w) && Taken(n', w) == |Sender(n, w).log.sent|
    decreases |Sender(run[|steps|], w).log.sent| - Taken(run[|steps|], w)
  {
    hide Init;
    var n := run[|steps|];
    if Taken(n, w) == |Sender(n, w).log.sent| {
      run', steps' := run, steps;
    } else {
      run', steps' := LosingTheRest(run + [Next(n, LostStep(w))], steps + [LostStep(w)], w);
    }
  }

  /**
    A removal that is not safe can cost a batch: the run has a continuation, by loss alone, in which
    the next batch that the receiver needs is gone for good.
   */
  lemma UnsafeRemovalCanLose(run: seq<Net>, steps: seq<Step>, w: Route) returns (run': seq<Net>, steps': seq<Step>, o: nat)
    requires IsRun(run, steps) && |steps| > 0 && FirstUnsafe(run, steps, |steps| - 1, w)
    ensures IsRun(run', steps') && run <= run' && steps <= steps' && GoneOn(run'[|steps'|], w, o)
  {
    hide FirstUnsafe, Next, Init, Held, NothingMissing, Gone;
    var k := |steps| - 1;
    o := |Receiver(run[k], w).log.accepted|;
    UnsafeStepMisses(run, steps, k, w);
    RunInv(run, steps, k + 1);
    InvPosition(run[k + 1]);
    MissingCanBeLost(Sender(run[k + 1], w), Receiver(run[k + 1], w), o);
    run', steps' := LosingTheRest(run, steps, w);
  }

  // ===== a heartbeat that ends the handshake out of sequence =====

  // ----- positions in a log -----

  /** Without a response in between, counts do not go down. */
  lemma {:induction false} CountsRise(s: Tx, m: nat, n: nat)
    requires InOrder(s) && m <= n < |s.sent| && NonePending(s.sent, m, RetrResp)
    ensures s.sent[m].origin <= s.sent[n].origin
  {
    if m < n {
      CountsRise(s, m, n - 1);
      assert Succeeds(s.sent[n - 1], s.sent[n]);
    }
  }

  /** Behind a control PDU with no response after it, the queue starts with what it counts. */
  lemma QueuedBehind(s: Tx, m: nat, k: nat)
    requires InOrder(s) && m < |s.sent| && NonePending(s.sent, m, RetrResp) && k < |s.fifo|
    requires s.fifo[k].sn > s.sent[m].sn
    ensures s.fifo[k].origin >= s.sent[m].origin
  {
    var last := |s.sent| - 1;
    NumbersRise(s, 0, m);
    var l := NumberIsUsed(s, s.fifo[k].sn, last);
    if l < m {
      NumbersRise(s, l, m);
    } else {
      CountsRise(s, m, l);
    }
  }

  // ----- a batch that was skipped -----

  /** Batch o is not buffered nor under way, and wherever it is still queued its number is confirmed. */
  predicate Skipped(s: Tx, i: nat, r: Rx, j: nat, o: nat) {
    && o < |s.batches| && i <= |s.sent|
    && (forall k :: 0 <= k < |r.accepted| ==> r.accepted[k].origin != o)
    && (forall m :: i <= m < |s.sent| && Bears(s.sent[m]) ==> s.sent[m].origin != o)
    && (forall k :: 0 <= k < |s.fifo| && s.fifo[k].origin == o ==>
          s.fifo[k].sn <= r.csT && forall m :: j <= m < |r.sent| && r.sent[m].kind == RetrReq ==> s.fifo[k].sn <= r.sent[m].cs)
  }

  lemma MoveKeepsSkipped(s: Tx, m: Move, i: nat, r: Rx, j: nat, o: nat)
    requires Skipped(s, i, r, j, o) && Possible(s, m)
    requires m.Again? ==> forall k :: 0 <= k < |s.fifo| ==> s.fifo[k].origin != o
    ensures Skipped(Moved(s, m), i, r, j, o)
  {
    match m {
      case Drop(cs) => var k := PopConfirmedIsSuffix(s.fifo, cs);
      case Again(_, b, _) => assert forall k :: 0 <= k < |b| ==> b[k].origin != o;
      case _ =>
    }
  }

  lemma ConsumedKeepsSkipped(s: Tx, i: nat, r: Rx, j: nat, o: nat)
    requires Skipped(s, i, r, j, o)
    ensures Skipped(s, i, r, j + 1, o) && (i < |s.sent| ==> Skipped(s, i + 1, r, j, o))
  {
  }

  /** The sender handles the next PDU of the receiver. */
  lemma SenderReceivesSkipped(c: Conn, env: Env, i: nat, r: Conn, j: nat, o: nat)
    requires Skipped(TxOf(c), i, RxOf(r), j, o) && InOrder(TxOf(c))
    requires j < |r.log.sent| && r.log.sent[j].kind != ConnReq
    ensures Skipped(TxOf(Receive(c, r.log.sent[j], env)), i, RxOf(r), j + 1, o)
  {
    hide Receive, Possible, Moved, Removes;
    var p := r.log.sent[j];
    ConsumedKeepsSkipped(TxOf(c), i, RxOf(r), j, o);
    QueueIsSorted(TxOf(c));
    var inv := (s: Tx) => Skipped(s, i, RxOf(r), j, o) && Skipped(s, i, RxOf(r), j + 1, o);
    forall s, m | inv(s) && Possible(s, m) && Provoked(c, p, s, m) ensures inv(Moved(s, m)) {
      MoveKeepsSkipped(s, m, i, RxOf(r), j, o);
      MoveKeepsSkipped(s, m, i, RxOf(r), j + 1, o);
    }
    ReceiveMoves(inv, inv, c, p, env);
  }

  lemma QueueIsSorted(s: Tx)
    requires InOrder(s)
    ensures Sorted(s.fifo)
  {
  }

  lemma SenderActsSkipped(c: Conn, e: Local, now: nat, i: nat, r: Conn, j: nat, o: nat)
    requires Skipped(TxOf(c), i, RxOf(r), j, o) && Ready(c)
    ensures Skipped(TxOf(LocalStep(c, e, now)), i, RxOf(r), j, o)
  {
    hide LocalStep, Possible, Moved, Skipped;
    var inv := (s: Tx) => Skipped(s, i, RxOf(r), j, o);
    forall s, m | inv(s) && Possible(s, m) && (m.Say? || (m.First? && s.snT > 0)) ensures inv(Moved(s, m)) {
      MoveKeepsSkipped(s, m, i, RxOf(r), j, o);
    }
    LocalMoves(inv, true, c, e, now);
  }

  /** The receiver: its confirmed number never goes down, and a request carries it. */
  lemma ReactionKeepsSkipped(s: Tx, i: nat, r: Rx, r': Rx, j: nat, o: nat)
    requires Skipped(s, i, r, j, o) && j <= |r.sent| && i < |s.sent| && r.csT <= r'.csT && Confirming(r, r')
    requires r'.accepted == r.accepted || (r'.accepted == r.accepted + [s.sent[i]] && Bears(s.sent[i]))
    ensures Skipped(s, i + 1, r', j, o)
  {
  }

  lemma ConfirmationRises(s: Tx, i: nat, r: Rx, r': Rx)
    requires Follows(s, i, r) && i < |s.sent| && Reacts(r, s.sent[i], r')
    ensures r.csT <= r'.csT
    ensures r'.accepted == r.accepted || (r'.accepted == r.accepted + [s.sent[i]] && Bears(s.sent[i]))
  {
  }

  lemma ReceiverReceivesSkipped(s: Conn, i: nat, c: Conn, env: Env, j: nat, o: nat)
    requires Skipped(TxOf(s), i, RxOf(c), j, o) && Way(s, i, c) && j <= |c.log.sent|
    requires i < |s.log.sent| && s.log.sent[i].kind != ConnReq
    ensures Skipped(TxOf(s), i + 1, RxOf(Receive(c, s.log.sent[i], env)), j, o)
  {
    hide Receive, Skipped, InOrder, Follows, Ignores, Notes, Takes, Confirming, WaitsOn;
    var r, r' := RxOf(c), RxOf(Receive(c, s.log.sent[i], env));
    ReceiveReacts(c, s.log.sent[i], env);
    ConfirmationRises(TxOf(s), i, r, r');
    ReactionKeepsSkipped(TxOf(s), i, r, r', j, o);
  }

  lemma ReceiverActsSkipped(s: Conn, i: nat, c: Conn, e: Local, now: nat, j: nat, o: nat)
    requires Skipped(TxOf(s), i, RxOf(c), j, o) && j <= |c.log.sent|
    ensures Skipped(TxOf(s), i, RxOf(LocalStep(c, e, now)), j, o)
  {
    hide LocalStep;
    LocalReacts(c, e, now);
  }

  predicate SkippedAtB(n: Net, o: nat) {
    n.atB > 0 && Skipped(TxOf(n.a), n.atB, RxOf(n.b), n.atA, o)
  }

  lemma NextKeepsSkipped(n: Net, st: Step, o: nat)
    requires Inv(n) && BothReady(n) && NetWay(n) && Enabled(n, st) && SkippedAtB(n, o)
    ensures SkippedAtB(Next(n, st), o)
  {
    hide Direction, Receive, LocalStep, Skipped, InOrder, Follows;
    InvPosition(n);
    match st {
      case AReceives(env) => SenderReceivesSkipped(n.a, env, n.atB, n.b, n.atA, o);
      case BReceives(env) => ReceiverReceivesSkipped(n.a, n.atB, n.b, env, n.atA, o);
      case ALocal(e, now) => SenderActsSkipped(n.a, e, now, n.atB, n.b, n.atA, o);
      case BLocal(e, now) => ReceiverActsSkipped(n.a, n.atB, n.b, e, now, n.atA, o);
      case _ => ConsumedKeepsSkipped(TxOf(n.a), n.atB, RxOf(n.b), n.atA, o);
    }
  }

  lemma {:induction false} StaysSkipped(run: seq<Net>, steps: seq<Step>, j: nat, k: nat, o: nat)
    requires IsRun(run, steps) && j <= k < |run| && SkippedAtB(run[j], o)
    ensures SkippedAtB(run[k], o)
  {
    hide SkippedAtB, Inv, Init, Next, BothReady, NetWay;
    if j < k {
      StaysSkipped(run, steps, j, k - 1, o);
      RunInv(run, steps, k - 1);
      RunReady(run, steps, k - 1);
      RunWay(run, steps, k - 1);
      NextKeepsSkipped(run[k - 1], steps[k - 1], o);
    }
  }

  // ----- the late first heartbeat -----

  /** The heartbeat p brings the server up although it is out of sequence. */
  predicate StartsLate(c: Conn, p: Packet, env: Env) {
    p.kind == Heartbeat && c.state == Start && !SnInSeq(c, p) && Receive(c, p, env).state == Up
  }

  lemma LateStart(c: Conn, p: Packet, env: Env)
    requires StartsLate(c, p, env)
    ensures
      var c' := Receive(c, p, env);
      && c'.csT == p.sn && c'.log.accepted == c.log.accepted && c.log.sent <= c'.log.sent
      && forall m :: |c.log.sent| <= m < |c'.log.sent| ==> c'.log.sent[m].kind != RetrReq
  {
  }

  lemma LateStartSkips(s: Conn, i: nat, c: Conn, env: Env, j: nat, o: nat)
    requires Way(s, i, c) && i < |s.log.sent| && StartsLate(c, s.log.sent[i], env) && o < s.log.sent[i].origin
    requires c.log.accepted == [] && j <= |c.log.sent| && s.log.sent[i].origin <= |s.log.batches|
    requires NonePending(c.log.sent, j, RetrReq) && NonePending(s.log.sent, i, RetrResp)
    ensures Skipped(TxOf(s), i + 1, RxOf(Receive(c, s.log.sent[i], env)), j, o)
  {
    hide Receive, InOrder, Follows;
    var t := TxOf(s);
    LateStart(c, s.log.sent[i], env);
    forall m | i + 1 <= m < |t.sent| ensures t.sent[m].origin != o {
      CountsRise(t, i, m);
    }
    forall k | 0 <= k < |t.fifo| && t.fifo[k].origin == o ensures t.fifo[k].sn <= t.sent[i].sn {
      if t.fifo[k].sn > t.sent[i].sn {
        QueuedBehind(t, i, k);
      }
    }
  }

  lemma CountFits(s: Tx, m: nat)
    requires InOrder(s) && m < |s.sent| && NonePending(s.sent, m, RetrResp)
    ensures s.sent[m].origin <= |s.batches|
  {
    CountsRise(s, m, |s.sent| - 1);
  }

  lemma StartFacts(n: Net)
    requires Inv(n) && n.b.state == Start
    ensures n.b.log.accepted == [] && n.atA <= |n.b.log.sent|
    ensures NonePending(n.b.log.sent, n.atA, RetrReq) && NonePending(n.a.log.sent, n.atB, RetrResp)
  {
  }

  /**
    In every run: once a heartbeat out of sequence has brought the server up, no batch that was sent
    before that heartbeat is ever buffered.
   */
  lemma SkippedByLateHeartbeat(run: seq<Net>, steps: seq<Step>, j: nat, k: nat)
    requires IsRun(run, steps) && j < k < |run| && steps[j].BReceives?
    requires StartsLate(run[j].b, run[j].a.log.sent[run[j].atB], steps[j].env)
    ensures
      var p := run[j].a.log.sent[run[j].atB];
      && p.origin <= |run[j].a.log.batches|
      && forall l :: 0 <= l < |run[k].b.log.accepted| ==> run[k].b.log.accepted[l].origin >= p.origin
  {
    hide Init, Receive, InOrder, Follows, Skipped, Inv, StartsLate;
    var n, env := run[j], steps[j].env;
    var p := n.a.log.sent[n.atB];
    RunInv(run, steps, j);
    RunWay(run, steps, j);
    StartsFromStart(n.b, p, env);
    StartFacts(n);
    CountFits(TxOf(n.a), n.atB);
    forall l | 0 <= l < |run[k].b.log.accepted| ensures run[k].b.log.accepted[l].origin >= p.origin {
      var o := run[k].b.log.accepted[l].origin;
      if o < p.origin {
        LateStartSkips(n.a, n.atB, n.b, env, n.atA, o);
        StaysSkipped(run, steps, j + 1, k, o);
        SkippedIsNotBuffered(run[k], o, l);
      }
    }
  }

  lemma StartsFromStart(c: Conn, p: Packet, env: Env)
    requires StartsLate(c, p, env)
    ensures c.state == Start
  {
  }

  lemma SkippedIsNotBuffered(n: Net, o: nat, l: nat)
    requires SkippedAtB(n, o) && l < |n.b.log.accepted|
    ensures n.b.log.accepted[l].origin != o
  {
  }

  // ===== the exact conditions on the way to the server =====

  /** At step j a heartbeat out of sequence ends the server's handshake behind a batch. */
  ghost predicate SkipsAt(run: seq<Net>, steps: seq<Step>, j: nat)
    requires IsRun(run, steps) && j < |steps|
  {
    steps[j].BReceives? && !StartsSafely(run[j].b, Handed(run[j], steps[j]))
  }

  lemma SkippingIsLate(c: Conn, p: Packet, env: Env)
    requires !StartsSafely(c, p)
    ensures StartsLate(c, p, env) && p.origin > 0
  {
  }

  lemma {:induction false} FirstSkip(run: seq<Net>, steps: seq<Step>, k: nat) returns (i: nat)
    requires IsRun(run, steps) && k <= |steps| && !Punctual(run, steps, k)
    ensures i < k && SkipsAt(run, steps, i) && Punctual(run, steps, i)
  {
    hide StartsSafely, Init, Next;
    if Punctual(run, steps, k - 1) {
      i := k - 1;
    } else {
      i := FirstSkip(run, steps, k - 1);
    }
  }

  // ----- what is buffered are the first batches -----

  lemma ReceiveAccepts(c: Conn, p: Packet, env: Env)
    ensures c.log.accepted <= Receive(c, p, env).log.accepted
  {
    if p.kind == ConnReq {
      hide CheckPacket;
    } else {
      hide Receive, Reacts;
      ReceiveReacts(c, p, env);
      ReactionTakes(RxOf(c), p, RxOf(Receive(c, p, env)));
    }
  }

  lemma {:induction false} AcceptedGrows(run: seq<Net>, steps: seq<Step>, j: nat, k: nat)
    requires IsRun(run, steps) && j <= k < |run|
    ensures run[j].b.log.accepted <= run[k].b.log.accepted
  {
    hide Init, Receive, LocalStep;
    if j < k {
      AcceptedGrows(run, steps, j, k - 1);
      match steps[k - 1] {
        case BReceives(env) => ReceiveAccepts(run[k - 1].b, Handed(run[k - 1], steps[k - 1]), env);
        case BLocal(e, now) => LocalReacts(run[k - 1].b, e, now);
        case _ =>
      }
    }
  }

  /**
    With safe removals, what the server has buffered are at all times the first batches if and only if
    no heartbeat ended its handshake out of sequence behind a batch, or nothing was buffered after all.
   */
  lemma FirstOnesExactlyWhen(run: seq<Net>, steps: seq<Step>, k: nat)
    requires IsRun(run, steps) && k < |run| && RemovalsSafe(run, steps, k, ToB)
    ensures (forall j :: 0 <= j <= k ==> Exactly(run[j].b.log.accepted)) <==>
            Punctual(run, steps, k) || run[k].b.log.accepted == []
  {
    hide Init, Next, StartsSafely, RemovesSafely, NothingMissing;
    if Punctual(run, steps, k) {
      forall j | 0 <= j <= k ensures Exactly(run[j].b.log.accepted) {
        SafeIsComplete(run, steps, j, ToB);
        SureIsFirst(run[j]);
      }
    } else if run[k].b.log.accepted == [] {
      forall j | 0 <= j <= k ensures Exactly(run[j].b.log.accepted) {
        AcceptedGrows(run, steps, j, k);
      }
    } else {
      var i := FirstSkip(run, steps, k);
      SkippingIsLate(run[i].b, Handed(run[i], steps[i]), steps[i].env);
      SkippedByLateHeartbeat(run, steps, i, k);
      assert run[k].b.log.accepted[0].origin != 0;
    }
  }

  lemma SureIsFirst(n: Net)
    requires SureOn(n, ToB)
    ensures Exactly(n.b.log.accepted)
  {
  }

  // ----- nothing is missing -----

  /** After a skip no PDU made the client remove anything. */
  ghost predicate UntouchedAfterSkip(run: seq<Net>, steps: seq<Step>, k: nat)
    requires IsRun(run, steps) && k <= |steps|
  {
    forall i, j :: 0 <= i < j < k && SkipsAt(run, steps, i) && steps[j].AReceives? ==>
      !Removes(run[j].a, Handed(run[j], steps[j]))
  }

  /** The queue of the client holds every batch it ever sent. */
  predicate AllQueued(n: Net) {
    QueueStart(TxOf(n.a)) == 0
  }

  lemma ArrivalKeepsStart(c: Conn, p: Packet, env: Env)
    requires !Removes(c, p) && p.kind != ConnReq
    ensures QueueStart(TxOf(Receive(c, p, env))) == QueueStart(TxOf(c))
  {
    hide Receive, Removes;
    var inv := (s: Tx) => QueueStart(s) == QueueStart(TxOf(c));
    ReceiveMoves(inv, inv, c, p, env);
  }

  lemma LocalKeepsStart(c: Conn, e: Local, now: nat)
    ensures QueueStart(TxOf(LocalStep(c, e, now))) == QueueStart(TxOf(c))
  {
    hide LocalStep;
    var inv := (s: Tx) => QueueStart(s) == QueueStart(TxOf(c));
    LocalMoves(inv, false, c, e, now);
  }

  lemma StepKeepsStart(n: Net, st: Step)
    requires Enabled(n, st) && NonePending(n.b.log.sent, 0, ConnReq)
    requires st.AReceives? ==> !Removes(n.a, Handed(n, st))
    ensures QueueStart(TxOf(Next(n, st).a)) == QueueStart(TxOf(n.a))
  {
    hide Receive, LocalStep, Removes;
    match st {
      case AReceives(env) => ArrivalKeepsStart(n.a, Handed(n, st), env);
      case ALocal(e, now) => LocalKeepsStart(n.a, e, now);
      case _ =>
    }
  }

  lemma QueuedIsHeld(n: Net)
    requires InOrder(TxOf(n.a)) && AllQueued(n)
    ensures NothingMissingOn(n, ToB)
  {
    hide LogPart, Filed, QueueBehind, Resumed, Opens, Started;
    forall o | 0 <= o < |n.a.log.batches| ensures Held(n.a, n.b, o) {
      assert n.a.fifoRetr[o].origin == o;
    }
  }

  /** Before anything was buffered a complete route has everything queued. */
  lemma SureAndEmpty(n: Net)
    requires SureOn(n, ToB) && n.b.log.accepted == []
    ensures AllQueued(n)
  {
    hide LogPart, Filed, QueueBehind, Resumed, Opens, Started, Follows;
  }

  /** The first removal takes the first batch. */
  lemma RemovalTakesFirst(c: Conn, p: Packet, env: Env)
    requires InOrder(TxOf(c)) && QueueStart(TxOf(c)) == 0 && c.log.batches != [] && Removes(c, p)
    ensures StartsFrom(Receive(c, p, env).fifoRetr, 1)
  {
    hide Receive, LogPart, Filed, QueueBehind, Resumed, Opens, Started, Removes;
    var k := PopConfirmedIsSuffix(c.fifoRetr[1..], p.cs);
    LeftByArrival(c, p, env, 1);
  }

  /** As long as nothing is missing, nothing is removed after a skip. */
  lemma {:induction false} NothingRemovedSince(run: seq<Net>, steps: seq<Step>, i: nat, k: nat)
    requires IsRun(run, steps) && i < k < |run| && SkipsAt(run, steps, i) && AllQueued(run[i])
    requires forall j :: i < j <= k ==> NothingMissingOn(run[j], ToB)
    ensures AllQueued(run[k])
    ensures forall j :: i < j < k && steps[j].AReceives? ==> !Removes(run[j].a, Handed(run[j], steps[j]))
  {
    hide Init, Next, Removes, StartsSafely, Inv, AllQueued, NothingMissing;
    if k > i + 1 {
      NothingRemovedSince(run, steps, i, k - 1);
      if steps[k - 1].AReceives? && Removes(run[k - 1].a, Handed(run[k - 1], steps[k - 1])) {
        RemovedAfterSkip(run, steps, i, k - 1);
        assert false;
      }
    }
    QueueStays(run, steps, k - 1);
  }

  lemma QueueStays(run: seq<Net>, steps: seq<Step>, j: nat)
    requires IsRun(run, steps) && j < |steps| && AllQueued(run[j])
    requires steps[j].AReceives? ==> !Removes(run[j].a, Handed(run[j], steps[j]))
    ensures AllQueued(run[j + 1])
  {
    hide Init, Next, Removes, Direction;
    RunInv(run, steps, j);
    StepKeepsStart(run[j], steps[j]);
  }

  lemma RemovedAfterSkip(run: seq<Net>, steps: seq<Step>, i: nat, j: nat)
    requires IsRun(run, steps) && i < j < |steps| && SkipsAt(run, steps, i) && AllQueued(run[j])
    requires steps[j].AReceives? && Removes(run[j].a, Handed(run[j], steps[j]))
    ensures !NothingMissingOn(run[j + 1], ToB)
  {
    hide Init, Removes, StartsSafely, Receive, InOrder, Follows, Direction, StartsLate;
    var n, p := run[j], Handed(run[j], steps[j]);
    SkippingIsLate(run[i].b, Handed(run[i], steps[i]), steps[i].env);
    SkippedByLateHeartbeat(run, steps, i, j);
    BatchesNeverShrink(run, steps, i, j);
    RunWay(run, steps, j);
    RemovalTakesFirst(n.a, p, steps[j].env);
    RemovesIsNoRequest(n.a, p);
    ArrivalKeepsBatches(n.a, p, steps[j].env);
    assert !Held(run[j + 1].a, run[j + 1].b, 0);
  }

  lemma RemovesIsNoRequest(c: Conn, p: Packet)
    requires Removes(c, p)
    ensures p.kind != ConnReq
  {
  }

  lemma {:induction false} BatchesNeverShrink(run: seq<Net>, steps: seq<Step>, i: nat, j: nat)
    requires IsRun(run, steps) && i <= j < |run|
    ensures |run[i].a.log.batches| <= |run[j].a.log.batches|
  {
    hide Init, Receive, LocalStep, Direction;
    if i < j {
      BatchesNeverShrink(run, steps, i, j - 1);
      RunInv(run, steps, j - 1);
      var n := run[j - 1];
      match steps[j - 1] {
        case AReceives(env) => ArrivalKeepsBatches(n.a, Handed(n, steps[j - 1]), env);
        case ALocal(e, now) => LocalKeepsBatches(n.a, e, now);
        case _ =>
      }
    }
  }

  lemma LocalKeepsBatches(c: Conn, e: Local, now: nat)
    ensures |c.log.batches| <= |LocalStep(c, e, now).log.batches|
  {
    hide LocalStep;
    var inv := (s: Tx) => |c.log.batches| <= |s.batches|;
    LocalMoves(inv, false, c, e, now);
  }

  /**
    Without any condition: every batch of the client was at all times buffered by the server or queued
    by the client if and only if every removal was safe and, once a heartbeat had ended the handshake
    out of sequence behind a batch, nothing was removed any more.
   */
  lemma KeptForServerExactlyWhen(run: seq<Net>, steps: seq<Step>, k: nat)
    requires IsRun(run, steps) && k < |run|
    ensures (forall j :: 0 <= j <= k ==> NothingMissingOn(run[j], ToB)) <==>
            RemovalsSafe(run, steps, k, ToB) && UntouchedAfterSkip(run, steps, k)
  {
    hide Init, Next, StartsSafely, Removes, Confirmable, NothingMissingOn, AllQueued, Inv, SureOn;
    if Punctual(run, steps, k) {
      KeptExactlyWhen(run, steps, k, ToB);
    } else {
      var i := FirstSkip(run, steps, k);
      KeptExactlyWhen(run, steps, i, ToB);
      if RemovalsSafe(run, steps, i, ToB) {
        SkipFacts(run, steps, i);
        if forall j :: i < j <= k ==> NothingMissingOn(run[j], ToB) {
          NothingRemovedSince(run, steps, i, k);
        }
        if UntouchedAfterSkip(run, steps, k) {
          forall j | i < j <= k ensures NothingMissingOn(run[j], ToB) {
            UntouchedIsHeld(run, steps, i, j, k);
          }
        }
      }
    }
  }

  /** At the skip nothing was buffered yet and everything is queued. */
  lemma SkipFacts(run: seq<Net>, steps: seq<Step>, i: nat)
    requires IsRun(run, steps) && i < |steps| && RemovalsSafe(run, steps, i, ToB) && Punctual(run, steps, i)
    requires SkipsAt(run, steps, i)
    ensures AllQueued(run[i])
  {
    hide Init, Next, RemovesSafely, Punctual, RemovalsSafe, NothingMissingOn, Direction, Admitted;
    SafeIsComplete(run, steps, i, ToB);
    RunInv(run, steps, i);
    StartFacts(run[i]);
    SureAndEmpty(run[i]);
  }

  lemma {:induction false} UntouchedIsHeld(run: seq<Net>, steps: seq<Step>, i: nat, j: nat, k: nat)
    requires IsRun(run, steps) && i < j <= k <= |steps| && SkipsAt(run, steps, i) && AllQueued(run[i])
    requires UntouchedAfterSkip(run, steps, k)
    ensures AllQueued(run[j]) && NothingMissingOn(run[j], ToB)
  {
    hide Init, Next, Removes, StartsSafely, NothingMissingOn, AllQueued, InOrder, Follows;
    if j > i + 1 {
      UntouchedIsHeld(run, steps, i, j - 1, k);
    }
    QueueStays(run, steps, j - 1);
    RunWay(run, steps, j);
    QueuedIsHeld(run[j]);
  }
}

/**
  An endpoint that waits for a retransmission nobody was asked for, or whose request or response got
  lost, waits until the connection is closed: it never comes up again.
 */
module Stalling {
  import opened Packets
  import opened SafetyLayer
  import opened Runs
  import opened LossyRuns
  import opened Moves
  import E = Endpoint
  import C = Completeness

  /** `r` waits, and neither a request of its own nor a response to one is under way. */
  predicate Stalled(s: Conn, i: nat, r: Conn, j: nat) {
    && Waiting(RxOf(r)) && i <= |s.log.sent| && j <= |r.log.sent|
    && NonePending(r.log.sent, j, RetrReq) && NonePending(s.log.sent, i, RetrResp)
  }

  /** The peer answers nothing, because nothing is asked. */
  lemma PeerReceives(s: Conn, i: nat, r: Conn, j: nat, env: Env)
    requires Stalled(s, i, r, j) && j < |r.log.sent| && r.log.sent[j].kind != ConnReq
    ensures Stalled(Receive(s, r.log.sent[j], env), i, r, j + 1)
  {
    hide Receive;
    var inv := (t: Tx) => i <= |t.sent| && NonePending(t.sent, i, RetrResp);
    ReceiveMoves(inv, inv, s, r.log.sent[j], env);
  }

  lemma PeerActs(s: Conn, i: nat, r: Conn, j: nat, e: Local, now: nat)
    requires Stalled(s, i, r, j) && Ready(s)
    ensures Stalled(LocalStep(s, e, now), i, r, j)
  {
    hide LocalStep;
    var inv := (t: Tx) => i <= |t.sent| && NonePending(t.sent, i, RetrResp);
    LocalMoves(inv, true, s, e, now);
  }

  lemma WaitingReceives(s: Conn, i: nat, r: Conn, j: nat, env: Env)
    requires Stalled(s, i, r, j) && i < |s.log.sent| && s.log.sent[i].kind != ConnReq
    ensures Stalled(s, i + 1, Receive(r, s.log.sent[i], env), j)
  {
    hide Receive, Ignores, Notes, Takes, Confirming;
    ReceiveReacts(r, s.log.sent[i], env);
  }

  lemma WaitingActs(s: Conn, i: nat, r: Conn, j: nat, e: Local, now: nat)
    requires Stalled(s, i, r, j)
    ensures Stalled(s, i, LocalStep(r, e, now), j)
  {
    hide LocalStep;
    LocalReacts(r, e, now);
  }

  predicate StalledOn(n: Net, w: Route) {
    n.atB > 0 && Stalled(Sender(n, w), Taken(n, w), Receiver(n, w), TakenBack(n, w))
  }

  lemma NextStalled(n: Net, st: Step, w: Route)
    requires Inv(n) && C.BothReady(n) && Enabled(n, st) && StalledOn(n, w)
    ensures StalledOn(Next(n, st), w)
  {
    hide Direction, Receive, LocalStep, Waiting;
    var s, i, r, j := Sender(n, w), Taken(n, w), Receiver(n, w), TakenBack(n, w);
    if ReachesSender(st, w) {
      PeerReceives(s, i, r, j, st.env);
    } else if ReachesReceiver(st, w) {
      WaitingReceives(s, i, r, j, st.env);
    } else if (w.ToB? && st.ALocal?) || (w.ToA? && st.BLocal?) {
      PeerActs(s, i, r, j, st.local, st.now);
    } else if st.ALocal? || st.BLocal? {
      WaitingActs(s, i, r, j, st.local, st.now);
    }
  }

  lemma WaitingIsOpen(n: Net)
    requires Inv(n) && (n.b.state == RetrRequested || n.a.state == RetrRequested)
    ensures n.atB > 0
  {
  }

  lemma {:induction false} StaysStalled(run: seq<Net>, steps: seq<Step>, j: nat, k: nat, w: Route)
    requires IsRun(run, steps) && j <= k < |run| && StalledOn(run[j], w)
    ensures StalledOn(run[k], w)
  {
    hide StalledOn, Inv, Init, Next, C.BothReady;
    if j < k {
      StaysStalled(run, steps, j, k - 1, w);
      RunInv(run, steps, k - 1);
      C.RunReady(run, steps, k - 1);
      NextStalled(run[k - 1], steps[k - 1], w);
    }
  }

  /** Neither established nor on the way there. */
  predicate Broken(c: Conn) {
    c.state != Up && c.state != RetrRunning && c.state != Start
  }

  /**
    In every run, at either end: an endpoint in RetrRequested with no request of its own and no
    response under way never comes up again.
   */
  lemma UnansweredStaysDown(run: seq<Net>, steps: seq<Step>, j: nat, k: nat, w: Route)
    requires IsRun(run, steps) && j <= k < |run| && Receiver(run[j], w).state == RetrRequested
    requires Stalled(Sender(run[j], w), Taken(run[j], w), Receiver(run[j], w), TakenBack(run[j], w))
    ensures Broken(Receiver(run[k], w))
  {
    hide Inv, NonePending, Init, Next;
    RunInv(run, steps, j);
    WaitingIsOpen(run[j]);
    StaysStalled(run, steps, j, k, w);
  }

  lemma NothingUnderWay(n: Net, w: Route)
    requires Inv(n) && !Waiting(RxOf(Receiver(n, w)))
    ensures Taken(n, w) <= |Sender(n, w).log.sent| && TakenBack(n, w) <= |Receiver(n, w).log.sent|
    ensures NonePending(Receiver(n, w).log.sent, TakenBack(n, w), RetrReq)
    ensures NonePending(Sender(n, w).log.sent, Taken(n, w), RetrResp)
  {
  }

  /** A heartbeat puts c into the waiting state. */
  predicate GapSeen(c: Conn, p: Packet, env: Env) {
    p.kind == Heartbeat && !Waiting(RxOf(c)) && Receive(c, p, env).state == RetrRequested
  }

  /**
    One lost PDU that the next heartbeat reveals ends the connection, at either end: from the moment a
    heartbeat puts an endpoint into the waiting state, it never comes up again.
   */
  lemma GapSeenByHeartbeatIsFatal(run: seq<Net>, steps: seq<Step>, j: nat, k: nat, w: Route)
    requires IsRun(run, steps) && j < k < |run| && ReachesReceiver(steps[j], w)
    requires GapSeen(Receiver(run[j], w), Handed(run[j], steps[j]), steps[j].env)
    ensures Broken(Receiver(run[k], w))
  {
    hide Inv, Init, Receive, LocalStep;
    RunInv(run, steps, j);
    NothingUnderWay(run[j], w);
    E.GapSeenByHeartbeatIsNotAskedFor(Receiver(run[j], w), Handed(run[j], steps[j]), steps[j].env);
    UnansweredStaysDown(run, steps, j + 1, k, w);
  }
}

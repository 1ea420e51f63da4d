/**
  Being disconnected.  A disconnection request of the peer closes the connection and locks its timers
  for the rest of the session; which requests are heard in a run, and what an endpoint still does
  behind one.
 */
module Disconnection {
  import opened Packets
  import opened SafetyLayer
  import opened Runs
  import opened Transitions
  import L = LossyRuns
  import C = Completeness
  import D = Delivery
  import S = SilentLoss
  import E = Endpoint
  import SL = SenderLog

  // ----- one request -----

  /** A plausible request ends the session: nothing is sent, buffered, removed or recorded. */
  lemma DisconnectedByPeer(c: Conn, p: Packet, env: Env)
    requires p.kind == DiscReq && Plausible(c, p)
    ensures Receive(c, p, env) == c.(state := Closed, hbLocked := true, errors := NO_ERRORS)
  {
  }

  /** The timers run only while they are unlocked and the connection is established. */
  lemma TimersRunExactlyWhen(c: Conn, now: nat)
    ensures LocalStep(c, HeartbeatTimer, now) == c <==> !Ticking(c)
    ensures LocalStep(c, TimeoutTimer, now) == c <==> !Ticking(c)
  {
    hide Controls;
    LocalFollowsTable(c, HeartbeatTimer, now);
    LocalFollowsTable(c, TimeoutTimer, now);
  }

  // ----- the rest of the session -----

  /** Used, with locked timers, and not in a handshake. */
  predicate Locked(c: Conn) {
    c.hbLocked && c.state != Start && c.log.sent != []
  }

  lemma EventKeepsLocked(c: Conn, e: E.Event)
    requires Locked(c) && E.FirstSession(c, e)
    ensures Locked(E.Apply(c, e))
  {
    hide Receive, LocalStep, Controls, Counted;
    match e {
      case Arrives(p, env) => ArrivalFollowsTable(c, p, env);
      case Happens(l, now) => LocalFollowsTable(c, l, now);
    }
  }

  /** A closed connection leaves its state for one event only: a request for retransmission behind a gap. */
  lemma LeavesClosedExactlyWhen(c: Conn, e: E.Event)
    requires c.state == Closed && c.log.sent != [] && E.FirstSession(c, e)
    ensures
      E.Apply(c, e).state != Closed <==>
      e.Arrives? && e.p.kind == RetrReq && Plausible(c, e.p) && e.p.sn != c.snR
    ensures E.Apply(c, e).state != Closed ==> E.Apply(c, e).state == RetrRequested
  {
    hide Receive, LocalStep, Controls, Counted, Plausible;
    match e {
      case Arrives(p, env) => ArrivalFollowsTable(c, p, env);
      case Happens(l, now) => LocalFollowsTable(c, l, now);
    }
  }

  lemma {:induction false} StaysLocked(cs: seq<Conn>, es: seq<E.Event>, j: nat, k: nat)
    requires E.IsHistory(cs, es) && j <= k < |cs| && Locked(cs[j])
    ensures Locked(cs[k])
  {
    hide E.Begins, E.Apply, Locked;
    if j < k {
      StaysLocked(cs, es, j, k - 1);
      EventKeepsLocked(cs[k - 1], es[k - 1]);
    }
  }

  /**
    In every history: once a plausible disconnection request arrived at an endpoint that had sent
    something, the connection is Closed, and for the rest of the session neither the heartbeat timer
    nor the timeout does anything, and no handshake is under way.
   */
  lemma DisconnectedForGood(cs: seq<Conn>, es: seq<E.Event>, j: nat, k: nat, now: nat)
    requires E.IsHistory(cs, es) && j < |es| && j < k < |cs| && cs[j].log.sent != []
    requires es[j].Arrives? && es[j].p.kind == DiscReq && Plausible(cs[j], es[j].p)
    ensures cs[j + 1] == cs[j].(state := Closed, hbLocked := true, errors := NO_ERRORS)
    ensures cs[k].hbLocked && cs[k].state != Start
    ensures LocalStep(cs[k], HeartbeatTimer, now) == cs[k] == LocalStep(cs[k], TimeoutTimer, now)
  {
    hide E.Begins, Receive, LocalStep, Plausible;
    DisconnectedByPeer(cs[j], es[j].p, es[j].env);
    StaysLocked(cs, es, j + 1, k);
    TimersRunExactlyWhen(cs[k], now);
  }

  // ----- which requests are heard in a run -----

  /** What `s` has under way confirms in ascending order, from what `r` knows as confirmed upwards. */
  predicate Credit(s: Conn, i: nat, r: Conn) {
    && i <= |s.log.sent| && r.csR <= s.csT
    && (forall m :: i <= m < |s.log.sent| ==> r.csR <= s.log.sent[m].cs <= s.csT)
    && (forall m, n :: i <= m < n < |s.log.sent| ==> s.log.sent[m].cs <= s.log.sent[n].cs)
  }

  /** Every PDU sent names the two identities and has a correct code. */
  predicate Signed(s: Conn) {
    forall m :: 0 <= m < |s.log.sent| ==>
      var q := s.log.sent[m]; q.sender == s.cfg.myId && q.receiver == s.cfg.remoteId && q.intact
  }

  predicate NetCredit(n: Net) {
    Credit(n.a, n.atB, n.b) && Credit(n.b, n.atA, n.a) && Signed(n.a) && Signed(n.b)
  }

  /** What an endpoint notes confirms no less than before. */
  lemma NotesLater(s: Conn, i: nat, r: Conn, env: Env)
    requires C.Way(s, i, r) && i < |s.log.sent|
    ensures r.csT <= Receive(r, s.log.sent[i], env).csT
  {
    hide Receive, Controls, SL.InOrder, C.InRetransmission, C.Ahead, C.ConfirmsBelow, AnswersMarked, Counted, RowOf;
    ArrivalFollowsTable(r, s.log.sent[i], env);
  }

  /** The confirmed number of an endpoint is the old one or that of the PDU. */
  lemma CreditArrives(s: Conn, i: nat, r: Conn, env: Env)
    requires Credit(s, i, r) && i < |s.log.sent|
    ensures Credit(s, i + 1, Receive(r, s.log.sent[i], env))
  {
    hide Receive, Controls, AnswersMarked, Counted, RowOf;
    ArrivalFollowsTable(r, s.log.sent[i], env);
  }

  lemma CreditAnswers(s: Conn, i: nat, r: Conn, p: Packet, env: Env)
    requires Credit(s, i, r) && Signed(s) && s.csT <= Receive(s, p, env).csT
    ensures Credit(Receive(s, p, env), i, r) && Signed(Receive(s, p, env))
  {
    hide Receive, Controls, Counted, RowOf;
    ArrivalFollowsTable(s, p, env);
  }

  lemma CreditLocal(s: Conn, i: nat, r: Conn, e: Local, now: nat)
    requires Credit(s, i, r) && Signed(s)
    ensures Credit(LocalStep(s, e, now), i, r) && Signed(LocalStep(s, e, now))
  {
    hide LocalStep, Controls;
    LocalFollowsTable(s, e, now);
  }

  lemma CreditLocalReceiver(s: Conn, i: nat, r: Conn, e: Local, now: nat)
    requires Credit(s, i, r)
    ensures Credit(s, i, LocalStep(r, e, now))
  {
    hide LocalStep, Controls;
    LocalFollowsTable(r, e, now);
  }

  lemma NextCredit(n: Net, st: Step)
    requires NetCredit(n) && Enabled(n, st) && C.NetWay(n)
    ensures NetCredit(Next(n, st))
  {
    hide Receive, LocalStep, C.Way, Signed;
    match st {
      case AReceives(env) =>
        NotesLater(n.b, n.atA, n.a, env);
        CreditArrives(n.b, n.atA, n.a, env);
        CreditAnswers(n.a, n.atB, n.b, n.b.log.sent[n.atA], env);
      case BReceives(env) =>
        NotesLater(n.a, n.atB, n.b, env);
        CreditArrives(n.a, n.atB, n.b, env);
        CreditAnswers(n.b, n.atA, n.a, n.a.log.sent[n.atB], env);
      case ALocal(e, now) =>
        CreditLocal(n.a, n.atB, n.b, e, now);
        CreditLocalReceiver(n.b, n.atA, n.a, e, now);
      case BLocal(e, now) =>
        CreditLocal(n.b, n.atA, n.a, e, now);
        CreditLocalReceiver(n.a, n.atB, n.b, e, now);
      case _ =>
    }
  }

  lemma {:induction false} RunCredit(run: seq<Net>, steps: seq<Step>, k: nat)
    requires IsRun(run, steps) && k < |run|
    ensures NetCredit(run[k])
  {
    if k == 0 {
      hide Next, Enabled;
    } else {
      hide NetCredit, Init, Next, C.NetWay;
      RunCredit(run, steps, k - 1);
      C.RunWay(run, steps, k - 1);
      NextCredit(run[k - 1], steps[k - 1]);
    }
  }

  /** Each of the two names the other. */
  predicate Paired(s: Conn, r: Conn) {
    r.cfg.remoteId == s.cfg.myId && r.cfg.myId == s.cfg.remoteId
  }

  lemma HeardExactlyWhen(s: Conn, i: nat, r: Conn, j: nat)
    requires Credit(s, i, r) && Signed(s) && C.Way(s, i, r) && C.Way(r, j, s) && E.Sound(r)
    requires i < |s.log.sent| && s.log.sent[i].kind == DiscReq && r.log.sent != []
    ensures
      Plausible(r, s.log.sent[i]) <==>
      Paired(s, r) && s.log.sent[i].sn <= r.snR + 10 * r.cfg.sendMax
  {
    hide E.Conserved, E.Buffered, E.Consecutive, E.QueueOrdered;
  }

  lemma UnheardIsClosed(c: Conn, p: Packet, env: Env)
    requires p.kind == DiscReq && (c.log.sent == [] ==> c.state == Closed)
    ensures
      var c' := Receive(c, p, env);
      && c'.log == c.log && (c'.state == Closed <==> c.state == Closed || Plausible(c, p))
  {
  }

  /**
    In every run, at either end: a disconnection request of the peer that arrives sends and buffers
    nothing, and leaves the connection Closed exactly if it was Closed before or the two endpoints are
    configured for each other and no more than ten send windows lie between the number expected and
    the request's.
   */
  lemma DisconnectionIsHeard(run: seq<Net>, steps: seq<Step>, k: nat, w: Route)
    requires IsRun(run, steps) && k < |steps| && ReachesReceiver(steps[k], w)
    requires Handed(run[k], steps[k]).kind == DiscReq
    ensures
      var s, r, r', p := Sender(run[k], w), Receiver(run[k], w), Receiver(run[k + 1], w), Handed(run[k], steps[k]);
      && r'.log == r.log
      && (r'.state == Closed <==>
          r.state == Closed || (Paired(s, r) && p.sn <= r.snR + 10 * r.cfg.sendMax))
  {
    hide C.Way, Credit, Signed, E.Sound, Receive, LocalStep, Plausible, Init;
    var s, i, r, j := Sender(run[k], w), Taken(run[k], w), Receiver(run[k], w), TakenBack(run[k], w);
    RunCredit(run, steps, k);
    C.RunWay(run, steps, k);
    D.RunSound(run, steps, k);
    E.UsedUnlessClosed(r);
    UnheardIsClosed(r, Handed(run[k], steps[k]), steps[k].env);
    if r.log.sent != [] {
      HeardExactlyWhen(s, i, r, j);
    }
  }

  // ----- the rest of a run -----

  lemma NextLocked(n: Net, st: Step, w: Route)
    requires L.Inv(n) && Enabled(n, st) && Locked(Receiver(n, w))
    ensures Locked(Receiver(Next(n, st), w))
  {
    hide L.Direction, Receive, LocalStep, Locked;
    match st {
      case AReceives(env) =>
        if w.ToA? {
          EventKeepsLocked(n.a, E.Arrives(n.b.log.sent[n.atA], env));
        }
      case BReceives(env) =>
        if w.ToB? {
          LockedIsOpen(n);
          EventKeepsLocked(n.b, E.Arrives(n.a.log.sent[n.atB], env));
        }
      case ALocal(e, now) =>
        if w.ToA? {
          EventKeepsLocked(n.a, E.Happens(e, now));
        }
      case BLocal(e, now) =>
        if w.ToB? {
          EventKeepsLocked(n.b, E.Happens(e, now));
        }
      case _ =>
    }
  }

  /** A server that sent something has consumed the connection request. */
  lemma LockedIsOpen(n: Net)
    requires L.Inv(n) && Locked(n.b)
    ensures n.atB > 0
  {
    hide L.Direction;
  }

  lemma {:induction false} RunLocked(run: seq<Net>, steps: seq<Step>, j: nat, k: nat, w: Route)
    requires IsRun(run, steps) && j <= k < |run| && Locked(Receiver(run[j], w))
    ensures Locked(Receiver(run[k], w))
  {
    hide L.Inv, Init, Next, Locked;
    if j < k {
      RunLocked(run, steps, j, k - 1, w);
      L.RunInv(run, steps, k - 1);
      NextLocked(run[k - 1], steps[k - 1], w);
    }
  }

  /**
    In every run, at either end: from the moment a heard disconnection request arrived at an endpoint
    that had sent something, its timers stay locked to the end of the run.
   */
  lemma SilentTimersBehindDisconnection(run: seq<Net>, steps: seq<Step>, j: nat, k: nat, w: Route, now: nat)
    requires IsRun(run, steps) && j < |steps| && j < k < |run| && ReachesReceiver(steps[j], w)
    requires Handed(run[j], steps[j]).kind == DiscReq && Receiver(run[j], w).log.sent != []
    requires Paired(Sender(run[j], w), Receiver(run[j], w))
    requires Handed(run[j], steps[j]).sn <= Receiver(run[j], w).snR + 10 * Receiver(run[j], w).cfg.sendMax
    ensures
      var c := Receiver(run[k], w);
      c.hbLocked && LocalStep(c, HeartbeatTimer, now) == c == LocalStep(c, TimeoutTimer, now)
  {
    hide C.Way, Credit, Signed, E.Sound, Receive, LocalStep, Plausible, Init;
    var s, r, p := Sender(run[j], w), Receiver(run[j], w), Handed(run[j], steps[j]);
    RunCredit(run, steps, j);
    C.RunWay(run, steps, j);
    D.RunSound(run, steps, j);
    HeardExactlyWhen(s, Taken(run[j], w), r, TakenBack(run[j], w));
    DisconnectedByPeer(r, p, steps[j].env);
    RunLocked(run, steps, j + 1, k, w);
    TimersRunExactlyWhen(Receiver(run[k], w), now);
  }

  // ----- what is still sent: data -----

  /** Behind a disconnection a flush sends data exactly if messages and room are left. */
  lemma FlushedThoughClosed(c: Conn, p: Packet, env: Env, now: nat)
    requires p.kind == DiscReq && Plausible(c, p)
    ensures
      LocalStep(Receive(c, p, env), FlushTimer, now).log.sent == c.log.sent <==>
      c.fifoSend == [] || |c.fifoRetr| >= c.cfg.retrQueueSize
  {
    hide Receive;
    DisconnectedByPeer(c, p, env);
    FlushSends(Receive(c, p, env), now);
  }

  /** The server disconnects while the client has a message queued. */
  function Farewell(k: nat): Step {
    match k
    case 4 => BLocal(AppDisconnects, 0)
    case 5 => AReceives(S.ENV)
    case _ => ALocal(FlushTimer, 0)
  }

  lemma FarewellIsSent(ms: seq<Message>)
    requires |ms| == 3
    ensures
      var n := Next(S.State(4, ms), Farewell(4));
      && n.a == S.State(4, ms).a && n.atA == 1 && |n.b.log.sent| == 2 && n.b.log.sent[1] == S.FromB(DiscReq, 2, 2)
  {
  }

  lemma FarewellIsHeard(ms: seq<Message>)
    requires |ms| == 3
    ensures
      var c := S.State(4, ms).a;
      && c.state == Up && c.log.sent != [] && Plausible(c, S.FromB(DiscReq, 2, 2))
      && c.fifoSend == [ms[0]] && c.fifoRetr == [] && c.cfg == S.A_CONFIG
  {
  }

  /** Up to the moment when the client has a message queued the run is that of the silent loss. */
  function StateAt(k: nat, ms: seq<Message>): Net
    requires |ms| == 3
  {
    if k <= 4 then S.State(k, ms)
    else
      var n5 := Next(S.State(4, ms), Farewell(4));
      if k == 5 || !Enabled(n5, Farewell(5)) then n5
      else if k == 6 then Next(n5, Farewell(5))
      else Next(Next(n5, Farewell(5)), Farewell(6))
  }

  function ActAt(k: nat, ms: seq<Message>): Step
    requires |ms| == 3
  {
    if k < 4 then S.Act(k, ms) else Farewell(k)
  }

  lemma HappensAt(k: nat, ms: seq<Message>)
    requires k < 7 && |ms| == 3
    ensures Enabled(StateAt(k, ms), ActAt(k, ms)) && StateAt(k + 1, ms) == Next(StateAt(k, ms), ActAt(k, ms))
  {
    hide S.State, S.Act, Receive, LocalStep;
    if k < 4 {
      S.EveryStep(k, ms);
    } else {
      FarewellIsSent(ms);
    }
  }

  /** The client hears the request, and its flush timer sends the message. */
  lemma FarewellOutcome(ms: seq<Message>)
    requires |ms| == 3
    ensures
      var n, c, sent := StateAt(5, ms), StateAt(6, ms).a, StateAt(7, ms).a.log.sent;
      && n.atA < |n.b.log.sent| && n.b.log.sent[n.atA].kind == DiscReq && n.a.state == Up
      && c.state == Closed && StateAt(7, ms).a.state == Closed && |sent| == |c.log.sent| + 1
      && sent[|sent| - 1].kind == Data && sent[|sent| - 1].batch == [ms[0]]
  {
    hide S.State, Receive, LocalStep, Controls;
    FarewellIsSent(ms);
    FarewellIsHeard(ms);
    var c := S.State(4, ms).a;
    DisconnectedByPeer(c, S.FromB(DiscReq, 2, 2), S.ENV);
    var d := StateAt(6, ms).a;
    assert d == c.(state := Closed, hbLocked := true, errors := NO_ERRORS);
    FlushSends(d, 0);
    LocalFollowsTable(d, FlushTimer, 0);
  }

  /**
    Closed does not mean silent: there is a run in which the client hears the disconnection request of
    the server while a message is queued, and then sends it in a data PDU although it is Closed.
   */
  lemma DataBehindDisconnection(ms: seq<Message>) returns (run: seq<Net>, steps: seq<Step>)
    requires |ms| == 3
    ensures IsRun(run, steps) && |steps| == 7 && steps[5].AReceives? && steps[6] == ALocal(FlushTimer, 0)
    ensures Handed(run[5], steps[5]).kind == DiscReq && run[5].a.state == Up && run[6].a.state == Closed
    ensures
      var sent := run[7].a.log.sent;
      && run[7].a.state == Closed && |sent| == |run[6].a.log.sent| + 1
      && sent[|sent| - 1].kind == Data && sent[|sent| - 1].batch == [ms[0]]
  {
    hide StateAt, ActAt, Next, Enabled;
    run := seq(8, k requires 0 <= k => StateAt(k, ms));
    steps := seq(7, k requires 0 <= k => ActAt(k, ms));
    forall k | 0 <= k < 7
      ensures Enabled(run[k], steps[k]) && run[k + 1] == Next(run[k], steps[k])
    {
      HappensAt(k, ms);
    }
    FarewellBegins(ms);
    FarewellOutcome(ms);
  }

  lemma FarewellBegins(ms: seq<Message>)
    requires |ms| == 3
    ensures Init(StateAt(0, ms)) && ActAt(5, ms) == AReceives(S.ENV) && ActAt(6, ms) == ALocal(FlushTimer, 0)
  {
    hide S.State;
    S.Begins(ms);
  }
}

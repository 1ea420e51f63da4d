/**
  A run that loses messages without a trace: both endpoints end Up with every PDU consumed, and two
  of three messages are gone.  The removal at step 12 confirms number 4 while 3 and 5 are queued,
  which empties the queue, so that the retransmission asked for later has nothing left to send.
 */
module SilentLoss {
  import opened Packets
  import opened SafetyLayer
  import opened Runs
  import C = Completeness

  const A_CONFIG := Config(1, 2, 1, 10, 1, 10, 10, 10)
  const B_CONFIG := Config(2, 1, 1, 10, 1, 10, 10, 10)
  const ENV := Env(0, true)

  // ----- PDUs and states of this run; the clock stands still -----

  function FromA(kind: Kind, sn: nat, cs: nat, origin: nat): Packet {
    Packet(kind, 2, 1, sn, cs, 0, 0, [], true, origin)
  }

  function DataFromA(sn: nat, cs: nat, m: Message, origin: nat): Packet {
    Packet(Data, 2, 1, sn, cs, 0, 0, [m], true, origin)
  }

  function FromB(kind: Kind, sn: nat, cs: nat): Packet {
    Packet(kind, 1, 2, sn, cs, 0, 0, [], true, 0)
  }

  /** What a sends in this run. */
  function SentByA(ms: seq<Message>): (ps: seq<Packet>)
    requires |ms| == 3
    ensures |ps| == 8
  {
    [FromA(ConnReq, 1, 0, 0), FromA(Heartbeat, 2, 1, 0), DataFromA(3, 1, ms[0], 0), FromA(Heartbeat, 4, 1, 1),
     DataFromA(5, 1, ms[1], 1), DataFromA(6, 2, ms[2], 2), FromA(RetrResp, 7, 3, 3), FromA(Heartbeat, 8, 3, 3)]
  }

  function SentByB(): seq<Packet> {
    [FromB(ConnResp, 1, 1), FromB(Heartbeat, 2, 4), FromB(RetrReq, 3, 4)]
  }

  /** a after it has sent `said` PDUs and `batches` batches and consumed `heard` PDUs of b. */
  function A(ms: seq<Message>, said: nat, heard: nat, submitted: nat, batches: nat, queued: seq<Packet>, csR: nat): Conn
    requires |ms| == 3 && said <= 8 && batches <= submitted <= 3
  {
    Conn(A_CONFIG, Client, if heard == 0 then Start else Up, heard == 0,
         said + 1, if heard == 0 then 0 else heard + 1, 1, heard, csR, 0, 0,
         ms[batches..submitted], queued, [], NO_ERRORS,
         Log(SentByA(ms)[..said], seq(batches, k requires 0 <= k < 3 => [ms[k]]), ms[..submitted], [], [], 0, []))
  }

  /** b after it has sent `said` PDUs and last received number sn. */
  function B(ms: seq<Message>, state: State, said: nat, sn: nat, csR: nat, taken: nat, gaps: nat): Conn
    requires |ms| == 3 && said <= 3 && taken <= 1
  {
    Conn(B_CONFIG, Server, state, state == Start,
         said + 1, sn + 1, 1, sn, csR, 0, 0, [], [], ms[..taken], Errors(0, 0, 0, gaps, 0),
         Log(SentByB()[..said], [], [], SentByA(ms)[2..2 + taken], ms[..taken], 0, []))
  }

  function Act(k: nat, ms: seq<Message>): Step
    requires |ms| == 3
  {
    match k
    case 0 => BReceives(ENV)
    case 1 => AReceives(ENV)
    case 2 => BReceives(ENV)
    case 3 => ALocal(AppSends([ms[0]]), 0)
    case 4 => ALocal(FlushTimer, 0)
    case 5 => BReceives(ENV)
    case 6 => ALocal(HeartbeatTimer, 0)
    case 7 => BReceives(ENV)
    case 8 => ALocal(AppSends([ms[1]]), 0)
    case 9 => ALocal(FlushTimer, 0)
    case 10 => BLoses
    case 11 => BLocal(HeartbeatTimer, 0)
    case 12 => AReceives(ENV)
    case 13 => ALocal(AppSends([ms[2]]), 0)
    case 14 => ALocal(FlushTimer, 0)
    case 15 => BReceives(ENV)
    case 16 => AReceives(ENV)
    case _ => BReceives(ENV)
  }

  function State(k: nat, ms: seq<Message>): Net
    requires |ms| == 3
  {
    var d3, d5, d6 := SentByA(ms)[2], SentByA(ms)[4], SentByA(ms)[5];
    match k
    case 0 => Net(A(ms, 1, 0, 0, 0, [], 0), Fresh(B_CONFIG), 0, 0)
    case 1 => Net(A(ms, 1, 0, 0, 0, [], 0), B(ms, Start, 1, 1, 0, 0, 0), 0, 1)
    case 2 => Net(A(ms, 2, 1, 0, 0, [], 1), B(ms, Start, 1, 1, 0, 0, 0), 1, 1)
    case 3 => Net(A(ms, 2, 1, 0, 0, [], 1), B(ms, Up, 1, 2, 1, 0, 0), 1, 2)
    case 4 => Net(A(ms, 2, 1, 1, 0, [], 1), B(ms, Up, 1, 2, 1, 0, 0), 1, 2)
    case 5 => Net(A(ms, 3, 1, 1, 1, [d3], 1), B(ms, Up, 1, 2, 1, 0, 0), 1, 2)
    case 6 => Net(A(ms, 3, 1, 1, 1, [d3], 1), B(ms, Up, 1, 3, 1, 1, 0), 1, 3)
    case 7 => Net(A(ms, 4, 1, 1, 1, [d3], 1), B(ms, Up, 1, 3, 1, 1, 0), 1, 3)
    case 8 => Net(A(ms, 4, 1, 1, 1, [d3], 1), B(ms, Up, 1, 4, 1, 1, 0), 1, 4)
    case 9 => Net(A(ms, 4, 1, 2, 1, [d3], 1), B(ms, Up, 1, 4, 1, 1, 0), 1, 4)
    case 10 => Net(A(ms, 5, 1, 2, 2, [d3, d5], 1), B(ms, Up, 1, 4, 1, 1, 0), 1, 4)
    case 11 => Net(A(ms, 5, 1, 2, 2, [d3, d5], 1), B(ms, Up, 1, 4, 1, 1, 0), 1, 5)
    case 12 => Net(A(ms, 5, 1, 2, 2, [d3, d5], 1), B(ms, Up, 2, 4, 1, 1, 0), 1, 5)
    case 13 => Net(A(ms, 5, 2, 2, 2, [], 4), B(ms, Up, 2, 4, 1, 1, 0), 2, 5)
    case 14 => Net(A(ms, 5, 2, 3, 2, [], 4), B(ms, Up, 2, 4, 1, 1, 0), 2, 5)
    case 15 => Net(A(ms, 6, 2, 3, 3, [d6], 4), B(ms, Up, 2, 4, 1, 1, 0), 2, 5)
    case 16 => Net(A(ms, 6, 2, 3, 3, [d6], 4), B(ms, RetrRequested, 3, 4, 1, 1, 1), 2, 6)
    case 17 => Net(A(ms, 8, 3, 3, 3, [], 4), B(ms, RetrRequested, 3, 4, 1, 1, 1), 3, 6)
    case 18 => Net(A(ms, 8, 3, 3, 3, [], 4), B(ms, RetrRunning, 3, 7, 3, 1, 1), 3, 7)
    case _ => Net(A(ms, 8, 3, 3, 3, [], 4), B(ms, Up, 3, 8, 3, 1, 1), 3, 8)
  }

  predicate Happens(k: nat, ms: seq<Message>)
    requires |ms| == 3
  {
    Enabled(State(k, ms), Act(k, ms)) && State(k + 1, ms) == Next(State(k, ms), Act(k, ms))
  }

  // ----- step by step -----

  lemma Extends(ms: seq<Message>, k: nat)
    requires |ms| == 3 && k < 3
    ensures ms[k..k] == [] && ms[k..k + 1] == [ms[k]] && ms[..k + 1] == ms[..k] + [ms[k]]
  {
  }

  lemma SaysNext(ms: seq<Message>, n: nat)
    requires |ms| == 3 && n < 8
    ensures SentByA(ms)[..n + 1] == SentByA(ms)[..n] + [SentByA(ms)[n]]
  {
  }

  /** The application hands over the next message. */
  lemma Submits(ms: seq<Message>, said: nat, heard: nat, k: nat, queued: seq<Packet>, csR: nat)
    requires |ms| == 3 && said <= 8 && heard > 0 && k < 3
    ensures LocalStep(A(ms, said, heard, k, k, queued, csR), AppSends([ms[k]]), 0) == A(ms, said, heard, k + 1, k, queued, csR)
  {
    hide SentByA;
    Extends(ms, k);
    var c := A(ms, said, heard, k, k, queued, csR);
    var one: seq<Message> := [ms[k]];
    assert one[1..] == [] && c.fifoSend + one == one;
    assert !SendQueueFull(c);
    assert Enqueue(c.(fifoSend := [ms[k]], log := c.log.(submitted := ms[..k + 1])), [], 0) ==
           A(ms, said, heard, k + 1, k, queued, csR);
  }

  /** The flush timer sends it. */
  lemma Flushes(ms: seq<Message>, said: nat, heard: nat, k: nat, queued: seq<Packet>, csR: nat)
    requires |ms| == 3 && said < 8 && heard > 0 && k < 3 && |queued| < 10
    requires SentByA(ms)[said] == DataFromA(said + 1, heard, ms[k], k)
    ensures
      LocalStep(A(ms, said, heard, k + 1, k, queued, csR), FlushTimer, 0) ==
      A(ms, said + 1, heard, k + 1, k + 1, queued + [SentByA(ms)[said]], csR)
  {
    hide SentByA;
    SaysNext(ms, said);
    Extends(ms, k);
    var c, c' := A(ms, said, heard, k + 1, k, queued, csR),
      A(ms, said + 1, heard, k + 1, k + 1, queued + [SentByA(ms)[said]], csR);
    assert BatchSize(c) == 1 && c.fifoSend[..1] == [ms[k]] && c.fifoSend[1..] == [] == c'.fifoSend;
    assert c'.log.batches == c.log.batches + [[ms[k]]];
    assert DataPdu(c, 0) == SentByA(ms)[said];
  }

  // ----- the arrivals and the other timers, one lemma each -----

  lemma Handshake(ms: seq<Message>)
    requires |ms| == 3
    ensures Happens(0, ms) && Happens(1, ms)
  {
  }

  lemma HandshakeEnds(ms: seq<Message>)
    requires |ms| == 3
    ensures Happens(2, ms)
  {
  }

  lemma FirstMessage(ms: seq<Message>)
    requires |ms| == 3
    ensures Happens(3, ms) && Happens(4, ms)
  {
    Submits(ms, 2, 1, 0, [], 1);
    Flushes(ms, 2, 1, 0, [], 1);
  }

  lemma FirstArrives(ms: seq<Message>)
    requires |ms| == 3
    ensures Happens(5, ms)
  {
  }

  lemma Beat(ms: seq<Message>)
    requires |ms| == 3
    ensures Happens(6, ms)
  {
  }

  lemma BeatArrives(ms: seq<Message>)
    requires |ms| == 3
    ensures Happens(7, ms)
  {
  }

  lemma SecondMessage(ms: seq<Message>)
    requires |ms| == 3
    ensures Happens(8, ms) && Happens(9, ms) && Happens(10, ms)
  {
    Submits(ms, 4, 1, 1, [SentByA(ms)[2]], 1);
    Flushes(ms, 4, 1, 1, [SentByA(ms)[2]], 1);
  }

  lemma BeatOfB(ms: seq<Message>)
    requires |ms| == 3
    ensures Happens(11, ms)
  {
  }

  lemma QueueIsEmptied(ms: seq<Message>)
    requires |ms| == 3
    ensures Happens(12, ms)
  {
    var d3, d5 := SentByA(ms)[2], SentByA(ms)[4];
    PopsAll([d5], 4);
    assert [d3, d5][1..] == [d5];
    PopsAll([d3, d5], 4);
  }

  lemma PopsAll(q: seq<Packet>, cs: nat)
    requires q != [] && q[0].sn != cs && PopConfirmed(q[1..], cs) == []
    ensures PopConfirmed(q, cs) == []
  {
  }

  lemma ThirdMessage(ms: seq<Message>)
    requires |ms| == 3
    ensures Happens(13, ms) && Happens(14, ms)
  {
    Submits(ms, 5, 2, 2, [], 4);
    Flushes(ms, 5, 2, 2, [], 4);
  }

  lemma GapIsSeen(ms: seq<Message>)
    requires |ms| == 3
    ensures Happens(15, ms)
  {
  }

  lemma NothingIsLeftToSend(ms: seq<Message>)
    requires |ms| == 3
    ensures Happens(16, ms)
  {
    hide Receive;
    RequestAnswered(ms);
  }

  lemma RequestAnswered(ms: seq<Message>)
    requires |ms| == 3
    ensures Receive(A(ms, 6, 2, 3, 3, [SentByA(ms)[5]], 4), SentByB()[2], ENV) == A(ms, 8, 3, 3, 3, [], 4)
  {
    var a, p := A(ms, 6, 2, 3, 3, [SentByA(ms)[5]], 4), SentByB()[2];
    var c := UpdateConnection(a, p);
    PopsAll(c.fifoRetr, 4);
    SaysNext(ms, 6);
    SaysNext(ms, 7);
    assert SentByA(ms)[6] == FromA(RetrResp, 7, 3, 3) && SentByA(ms)[7] == FromA(Heartbeat, 8, 3, 3);
    hide SentByA, Respond, PopConfirmed;
    AnswersEmptyHanded(c);
    assert Receive(a, p, ENV) == Respond(c, p, 0);
  }

  /** A request that empties the queue is answered with a response and a heartbeat. */
  lemma AnswersEmptyHanded(c: Conn)
    requires PopConfirmed(c.fifoRetr, c.csR) == [] && !SendQueueFull(c)
    ensures
      var c1 := c.(fifoRetr := []);
      forall p: Packet :: p.cs == c.csR ==> Respond(c, p, 0) == SendHeartbeat(SendRetrResp(c1, 0), 0)
  {
    var c1 := c.(fifoRetr := []);
    assert RemoveConfirmed(c, 0) == c1;
    NothingToRetransmit(SendRetrResp(c1, 0));
    forall p: Packet | p.cs == c.csR ensures Respond(c, p, 0) == SendHeartbeat(SendRetrResp(c1, 0), 0) {
      assert c.(csR := p.cs) == c;
    }
  }

  lemma NothingToRetransmit(c: Conn)
    requires c.fifoRetr == []
    ensures Retransmit(c, 0) == SendHeartbeat(c, 0)
  {
    assert Burst(c, 0) == [];
    assert c.log.sent + [] == c.log.sent;
  }

  /** With nothing queued a confirmation changes nothing. */
  lemma RemovesNothing(c: Conn)
    requires c.fifoRetr == [] && !SendQueueFull(c)
    ensures RemoveConfirmed(c, 0) == c
  {
  }

  lemma ResponseArrives(ms: seq<Message>)
    requires |ms| == 3
    ensures Happens(17, ms)
  {
  }

  lemma UpAgain(ms: seq<Message>)
    requires |ms| == 3
    ensures Happens(18, ms)
  {
    hide RemoveConfirmed, SentByB;
    var b, p := State(18, ms).b, SentByA(ms)[7];
    assert SnInSeq(b, p) && CtsInSeq(b, p) && Admitted(b, p);
    RemovesNothing(UpdateConfirmed(UpdateConnection(b, p), p));
  }

  // ----- the run -----

  lemma EveryStep(k: nat, ms: seq<Message>)
    requires k < 19 && |ms| == 3
    ensures Happens(k, ms)
  {
    hide Happens;
    Handshake(ms);
    HandshakeEnds(ms);
    FirstMessage(ms);
    FirstArrives(ms);
    Beat(ms);
    BeatArrives(ms);
    SecondMessage(ms);
    BeatOfB(ms);
    QueueIsEmptied(ms);
    ThirdMessage(ms);
    GapIsSeen(ms);
    NothingIsLeftToSend(ms);
    ResponseArrives(ms);
    UpAgain(ms);
  }

  lemma Begins(ms: seq<Message>)
    requires |ms| == 3
    ensures Init(State(0, ms))
  {
    assert State(0, ms) == Net(Connected(Fresh(A_CONFIG), 0), Fresh(B_CONFIG), 0, 0);
  }

  /** What went wrong: at step 12 number 4 is confirmed while 3 and 5 are queued. */
  lemma RemovalIsUnsafe(ms: seq<Message>)
    requires |ms| == 3
    ensures
      var n := State(12, ms);
      !C.RemovesSafely(n.a, n.b.log.sent[n.atA], n.b)
  {
    var q := State(12, ms).a.fifoRetr;
    assert q[0].sn == 3 && q[1].sn == 5;
  }

  /**
    Whatever the three messages are, there is a run at whose end both endpoints are Up, every PDU was
    consumed, nothing is queued, and only the first of three batches was buffered.  At step 12 number 4
    is confirmed while 3 and 5 are queued, and the server has not buffered everything.
   */
  lemma MessagesLostSilently(ms: seq<Message>) returns (run: seq<Net>, steps: seq<Step>)
    requires |ms| == 3
    ensures IsRun(run, steps) && |steps| > 12 && steps[12].AReceives?
    ensures !C.RemovesSafely(run[12].a, Handed(run[12], steps[12]), run[12].b)
    ensures
      var n := run[|steps|];
      && n.a.state == Up && n.b.state == Up
      && n.atB == |n.a.log.sent| && n.atA == |n.b.log.sent|
      && n.a.fifoSend == [] && n.a.fifoRetr == [] && n.b.fifoRetr == []
      && n.a.log.submitted == ms && n.a.log.batches == [[ms[0]], [ms[1]], [ms[2]]]
      && Payloads(n.b.log.accepted) == [[ms[0]]] && n.b.log.delivered == [ms[0]] && n.b.log.dropped == 0
  {
    run := seq(20, k requires 0 <= k => State(k, ms));
    steps := seq(19, k requires 0 <= k => Act(k, ms));
    Begins(ms);
    forall k | 0 <= k < 19
      ensures Enabled(run[k], steps[k]) && run[k + 1] == Next(run[k], steps[k])
    {
      hide State, Act, Next, Enabled;
      EveryStep(k, ms);
    }
    LastState(ms);
    RemovalIsUnsafe(ms);
  }

  lemma LastState(ms: seq<Message>)
    requires |ms| == 3
    ensures
      var n := State(19, ms);
      && n.a.state == Up && n.b.state == Up
      && n.atB == |n.a.log.sent| && n.atA == |n.b.log.sent|
      && n.a.fifoSend == [] && n.a.fifoRetr == [] && n.b.fifoRetr == []
      && n.a.log.submitted == ms && n.a.log.batches == [[ms[0]], [ms[1]], [ms[2]]]
      && Payloads(n.b.log.accepted) == [[ms[0]]] && n.b.log.delivered == [ms[0]] && n.b.log.dropped == 0
  {
    var n := State(19, ms);
    assert n.a.log.batches == [[ms[0]], [ms[1]], [ms[2]]];
    assert Payloads(n.b.log.accepted) == [[ms[0]]];
  }
}

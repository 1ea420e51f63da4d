/**
  A run in which a late first heartbeat costs a message although every removal is exact: the
  heartbeat that should end the handshake and the first data PDU are lost, and the next heartbeat
  brings the server up behind both of them.  The clock moves with every event.
 */
module LateHeartbeat {
  import opened Packets
  import opened SafetyLayer
  import opened Runs
  import C = Completeness

  const A_CONFIG := Config(1, 2, 1, 10, 1, 100, 10, 10)
  const B_CONFIG := Config(2, 1, 1, 10, 1, 100, 10, 10)

  // ----- PDUs and states of this run -----

  function FromA(kind: Kind, sn: nat, cs: nat, ts: nat, cts: nat, batch: seq<Message>, origin: nat): Packet {
    Packet(kind, 2, 1, sn, cs, ts, cts, batch, true, origin)
  }

  function FromB(kind: Kind, sn: nat, cs: nat, ts: nat, cts: nat): Packet {
    Packet(kind, 1, 2, sn, cs, ts, cts, [], true, 0)
  }

  function SaidByA(m: Message): (ps: seq<Packet>)
    ensures |ps| == 4
  {
    [FromA(ConnReq, 1, 0, 5, 0, [], 0), FromA(Heartbeat, 2, 1, 20, 10, [], 0),
     FromA(Data, 3, 1, 40, 10, [m], 0), FromA(Heartbeat, 4, 1, 50, 10, [], 1)]
  }

  function SaidByB(): (ps: seq<Packet>)
    ensures |ps| == 3
  {
    [FromB(ConnResp, 1, 1, 10, 0), FromB(DiscReq, 2, 1, 60, 5), FromB(Heartbeat, 2, 4, 70, 50)]
  }

  /** a before the response, while Up, and behind the heartbeat of b. */
  function Dialling(m: Message): Conn {
    Conn(A_CONFIG, Client, Start, true, 2, 0, 1, 0, 0, 0, 5, [], [], [], NO_ERRORS,
         Log(SaidByA(m)[..1], [], [], [], [], 0, []))
  }

  function Sending(m: Message, said: nat, queued: seq<Message>): Conn
    requires 2 <= said <= 4
  {
    var sent := said > 2;
    Conn(A_CONFIG, Client, Up, false, said + 1, 2, 1, 1, 1, 10, 5, queued, if sent then [SaidByA(m)[2]] else [],
         [], NO_ERRORS, Log(SaidByA(m)[..said], if sent then [[m]] else [], if sent then [m] else queued, [], [], 0, []))
  }

  function Confirmed(m: Message): Conn {
    Conn(A_CONFIG, Client, Up, false, 5, 3, 1, 2, 4, 70, 50, [], [], [], NO_ERRORS,
         Log(SaidByA(m), [[m]], [m], [], [], 0, []))
  }

  /** b in the handshake and behind the late heartbeat. */
  function B(said: nat): Conn
    requires 1 <= said <= 3
  {
    var up := said > 1;
    Conn(B_CONFIG, Server, if up then Up else Start, !up,
         if said == 3 then 3 else 2, if up then 5 else 2, 1, if up then 4 else 1, if up then 1 else 0,
         if up then 50 else 5, 0, [], [], [], NO_ERRORS, Log(SaidByB()[..said], [], [], [], [], 0, []))
  }

  function Act(k: nat, m: Message): Step {
    match k
    case 0 => BReceives(Env(10, true))
    case 1 => AReceives(Env(20, true))
    case 2 => BLoses
    case 3 => ALocal(AppSends([m]), 30)
    case 4 => ALocal(FlushTimer, 40)
    case 5 => BLoses
    case 6 => ALocal(HeartbeatTimer, 50)
    case 7 => BReceives(Env(60, true))
    case 8 => ALoses
    case 9 => BLocal(HeartbeatTimer, 70)
    case _ => AReceives(Env(80, true))
  }

  function State(k: nat, m: Message): Net {
    match k
    case 0 => Net(Dialling(m), Fresh(B_CONFIG), 0, 0)
    case 1 => Net(Dialling(m), B(1), 0, 1)
    case 2 => Net(Sending(m, 2, []), B(1), 1, 1)
    case 3 => Net(Sending(m, 2, []), B(1), 1, 2)
    case 4 => Net(Sending(m, 2, [m]), B(1), 1, 2)
    case 5 => Net(Sending(m, 3, []), B(1), 1, 2)
    case 6 => Net(Sending(m, 3, []), B(1), 1, 3)
    case 7 => Net(Sending(m, 4, []), B(1), 1, 3)
    case 8 => Net(Sending(m, 4, []), B(2), 1, 4)
    case 9 => Net(Sending(m, 4, []), B(2), 2, 4)
    case 10 => Net(Sending(m, 4, []), B(3), 2, 4)
    case _ => Net(Confirmed(m), B(3), 3, 4)
  }

  predicate Happens(k: nat, m: Message) {
    Enabled(State(k, m), Act(k, m)) && State(k + 1, m) == Next(State(k, m), Act(k, m))
  }

  // ----- step by step -----

  lemma Handshake(m: Message)
    ensures Happens(0, m) && Happens(2, m)
  {
  }

  lemma HandshakeAnswered(m: Message)
    ensures Happens(1, m)
  {
  }

  lemma MessageSubmitted(m: Message)
    ensures Happens(3, m)
  {
    hide SaidByA;
    var c, one: seq<Message> := Sending(m, 2, []), [m];
    assert one[1..] == [] && c.fifoSend + one == one && c.log.submitted + one == one;
    assert !SendQueueFull(c);
    assert Enqueue(Sending(m, 2, one), [], 30) == Sending(m, 2, one);
  }

  lemma MessageSent(m: Message)
    ensures Happens(4, m) && Happens(5, m)
  {
    var c := Sending(m, 2, [m]);
    assert BatchSize(c) == 1 && c.fifoSend[..1] == [m] && c.fifoSend[1..] == [];
    assert DataPdu(c, 40) == SaidByA(m)[2];
  }

  lemma Beat(m: Message)
    ensures Happens(6, m) && Happens(8, m)
  {
  }

  lemma UpByLateHeartbeat(m: Message)
    ensures Happens(7, m)
  {
  }

  lemma BeatOfB(m: Message)
    ensures Happens(9, m)
  {
  }

  lemma RemovedByBeat(m: Message)
    ensures Happens(10, m)
  {
    var q := Sending(m, 4, []).fifoRetr;
    assert q[1..] == [];
    assert PopConfirmed(q[1..], 4) == [];
    assert PopConfirmed(q, 4) == [];
  }

  lemma EveryStep(k: nat, m: Message)
    requires k < 11
    ensures Happens(k, m)
  {
    hide Happens;
    Handshake(m);
    HandshakeAnswered(m);
    MessageSubmitted(m);
    MessageSent(m);
    Beat(m);
    UpByLateHeartbeat(m);
    BeatOfB(m);
    RemovedByBeat(m);
  }

  lemma RemovalsExact(k: nat, m: Message)
    requires k < 11 && Act(k, m).AReceives?
    ensures
      var n := State(k, m);
      n.atA < |n.b.log.sent| && C.RemovesExactly(n.a, n.b.log.sent[n.atA])
  {
  }

  lemma LastState(m: Message)
    ensures
      var n := State(11, m);
      && n.a.state == Up && n.b.state == Up
      && n.atB == |n.a.log.sent| && n.atA == |n.b.log.sent|
      && n.a.fifoRetr == [] && n.a.log.batches == [[m]] && n.b.log.accepted == []
      && n.a.tsR == 70 && n.a.ctsR == 50 && n.b.tsR == 50 && n.b.ctsR == 0
  {
  }

  lemma LateStart(m: Message)
    ensures Enabled(State(7, m), Act(7, m)) && Act(7, m).BReceives?
    ensures !C.StartsSafely(State(7, m).b, Handed(State(7, m), Act(7, m)))
  {
  }

  lemma Begins(m: Message)
    ensures Init(State(0, m))
  {
    assert State(0, m) == Net(Connected(Fresh(A_CONFIG), 5), Fresh(B_CONFIG), 0, 0);
  }

  /**
    The second guard is needed, too: there is a run in which every removal is exact, both endpoints
    end Up with every PDU consumed and nothing queued, and the only batch was never buffered.
   */
  lemma MessageSkippedByLateHeartbeat(m: Message) returns (run: seq<Net>, steps: seq<Step>)
    ensures IsRun(run, steps) && |steps| > 7 && steps[7].BReceives?
    ensures !C.StartsSafely(run[7].b, Handed(run[7], steps[7]))
    ensures forall j :: 0 <= j < |steps| && steps[j].AReceives? ==>
              C.RemovesExactly(run[j].a, run[j].b.log.sent[run[j].atA])
    ensures
      var n := run[|steps|];
      && n.a.state == Up && n.b.state == Up
      && n.atB == |n.a.log.sent| && n.atA == |n.b.log.sent|
      && n.a.fifoRetr == [] && n.a.log.batches == [[m]] && n.b.log.accepted == []
      && n.a.tsR == 70 && n.a.ctsR == 50 && n.b.tsR == 50 && n.b.ctsR == 0
  {
    hide State, Act, Next, C.RemovesExactly, C.StartsSafely;
    run := seq(12, k requires 0 <= k => State(k, m));
    steps := seq(11, k requires 0 <= k => Act(k, m));
    Begins(m);
    LateStart(m);
    forall k | 0 <= k < 11
      ensures Enabled(run[k], steps[k]) && run[k + 1] == Next(run[k], steps[k])
      ensures steps[k].AReceives? ==> C.RemovesExactly(run[k].a, run[k].b.log.sent[run[k].atA])
    {
      EveryStep(k, m);
      if steps[k].AReceives? {
        RemovalsExact(k, m);
      }
    }
    LastState(m);
  }
}

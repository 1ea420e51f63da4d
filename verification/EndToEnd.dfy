/**
  Both layers together.  Each endpoint is a connection on top of a redundancy channel, and the
  network may bring any datagrams made of copies of PDUs that were sent at some time: any number of
  transport channels with any loss, repetition and reordering.  Every such run looks to the safety
  layer like a run over a channel that loses nothing.
 */
module EndToEnd {
  import opened Packets
  import opened SafetyLayer
  import opened Runs
  import opened LossyRuns
  import R = ReliableRuns
  import E = Endpoint
  import D = Delivery
  import Red = Redundancy

  datatype Stack = Stack(a: Conn, b: Conn, chA: Red.Channel, chB: Red.Channel)

  /** `out` are the PDUs drained in this event, `envs` the surroundings of their handling. */
  datatype Act =
    | AHears(ps: seq<Red.RedPdu>, now: nat, out: seq<Red.RedPdu>, envs: seq<Env>)
    | BHears(ps: seq<Red.RedPdu>, now: nat, out: seq<Red.RedPdu>, envs: seq<Env>)
    | ADoes(local: Local, now: nat)
    | BDoes(local: Local, now: nat)

  /** The connection handles drained PDUs one after the other. */
  function HandleAll(c: Conn, out: seq<Red.RedPdu>, envs: seq<Env>): Conn
    requires |envs| == |out|
  {
    if out == [] then c
    else
      var n := |out| - 1;
      Receive(HandleAll(c, out[..n], envs[..n]), Red.Reencoded(out[n]), envs[n])
  }

  /** The number of the next redundancy PDU is the number of PDUs sent so far. */
  function SeqTx(c: Conn): nat {
    |c.log.sent|
  }

  ghost predicate ActStep(s: Stack, act: Act, s': Stack) {
    match act
    case AHears(ps, now, out, envs) =>
      && Red.AllCopies(s.b.log.sent, ps) && |envs| == |out|
      && Red.Hears(s.chA, SeqTx(s.a), ps, now, out, s'.chA)
      && s' == s.(a := HandleAll(s.a, out, envs), chA := s'.chA)
    case BHears(ps, now, out, envs) =>
      && Red.AllCopies(s.a.log.sent, ps) && |envs| == |out|
      && Red.Hears(s.chB, SeqTx(s.b), ps, now, out, s'.chB)
      && s' == s.(b := HandleAll(s.b, out, envs), chB := s'.chB)
    case ADoes(l, now) => s' == s.(a := LocalStep(s.a, l, now))
    case BDoes(l, now) => s' == s.(b := LocalStep(s.b, l, now))
  }

  predicate Empty(ch: Red.Channel) {
    ch.seqRx == 0 && ch.queue == multiset{}
  }

  ghost predicate IsStackRun(run: seq<Stack>, acts: seq<Act>) {
    && |run| == |acts| + 1
    && Init(NetOf(run[0])) && Empty(run[0].chA) && Empty(run[0].chB)
    && forall k :: 0 <= k < |acts| ==> ActStep(run[k], acts[k], run[k + 1])
  }

  /** The abstraction: positions in the peer's log are the expected redundancy numbers. */
  function NetOf(s: Stack): Net {
    Net(s.a, s.b, s.chA.seqRx, s.chB.seqRx)
  }

  predicate StackInv(s: Stack) {
    && R.NetInv(NetOf(s)) && Inv(NetOf(s)) && D.BothSound(NetOf(s))
    && Red.ChannelInv(s.b.log.sent, s.chA) && Red.ChannelInv(s.a.log.sent, s.chB)
  }

  predicate Good(n: Net) {
    R.NetInv(n) && Inv(n) && D.BothSound(n)
  }

  lemma GoodStep(n: Net, st: Step)
    requires Good(n) && Enabled(n, st) && R.Lossless(st)
    ensures Good(Next(n, st))
  {
    hide R.NetInv, Inv, D.BothSound, Next;
    R.NextNetInv(n, st);
    NextInv(n, st);
    D.NextSound(n, st);
  }

  lemma SentIntact(n: Net)
    requires R.NetInv(n)
    ensures forall m :: 0 <= m < |n.a.log.sent| ==> n.a.log.sent[m].intact
    ensures forall m :: 0 <= m < |n.b.log.sent| ==> n.b.log.sent[m].intact
  {
  }

  /** The receiver of a route has become c and has consumed k more PDUs. */
  function Advanced(n: Net, w: Route, c: Conn, k: nat): Net {
    if w.ToB? then n.(b := c, atB := n.atB + k) else n.(a := c, atA := n.atA + k)
  }

  /** Draining k PDUs at one end is k receptions of the loss-free network. */
  lemma {:induction false} Drain(n: Net, w: Route, out: seq<Red.RedPdu>, envs: seq<Env>)
    requires Good(n) && |envs| == |out| && Taken(n, w) + |out| <= |Sender(n, w).log.sent|
    requires forall k :: 0 <= k < |out| ==>
               Red.Reencoded(out[k]) == Sender(n, w).log.sent[Taken(n, w) + k].(intact := true)
    ensures Good(Advanced(n, w, HandleAll(Receiver(n, w), out, envs), |out|))
  {
    hide R.NetInv, Inv, D.BothSound, Receive;
    if out != [] {
      var k := |out| - 1;
      var n1 := Advanced(n, w, HandleAll(Receiver(n, w), out[..k], envs[..k]), k);
      Drain(n, w, out[..k], envs[..k]);
      SentIntact(n1);
      GoodStep(n1, if w.ToB? then BReceives(envs[k]) else AReceives(envs[k]));
      assert Red.Reencoded(out[k]) == Sender(n, w).log.sent[Taken(n, w) + k];
    }
  }

  lemma ChannelGrows(sent: seq<Packet>, sent': seq<Packet>, ch: Red.Channel)
    requires Red.ChannelInv(sent, ch) && sent <= sent'
    ensures Red.ChannelInv(sent', ch)
  {
  }

  lemma {:induction false} HandleAllGrows(c: Conn, out: seq<Red.RedPdu>, envs: seq<Env>)
    requires |envs| == |out|
    ensures c.log.sent <= HandleAll(c, out, envs).log.sent
  {
    hide Receive;
    if out != [] {
      var k := |out| - 1;
      HandleAllGrows(c, out[..k], envs[..k]);
      E.ReceiveGrows(HandleAll(c, out[..k], envs[..k]), Red.Reencoded(out[k]), envs[k]);
    }
  }

  lemma ActKeepsInv(s: Stack, act: Act, s': Stack)
    requires StackInv(s) && ActStep(s, act, s')
    ensures StackInv(s')
  {
    hide R.NetInv, Inv, D.BothSound, Red.ChannelInv, Red.Hears, HandleAll, LocalStep;
    var n := NetOf(s);
    match act {
      case AHears(ps, now, out, envs) =>
        Red.HearsKeeps(s.b.log.sent, s.chA, SeqTx(s.a), ps, now, out, s'.chA);
        Position(s.b.log.sent, s'.chA);
        Drain(n, ToA, out, envs);
        HandleAllGrows(s.a, out, envs);
        ChannelGrows(s.a.log.sent, s'.a.log.sent, s.chB);
      case BHears(ps, now, out, envs) =>
        Red.HearsKeeps(s.a.log.sent, s.chB, SeqTx(s.b), ps, now, out, s'.chB);
        Position(s.a.log.sent, s'.chB);
        Drain(n, ToB, out, envs);
        HandleAllGrows(s.b, out, envs);
        ChannelGrows(s.b.log.sent, s'.b.log.sent, s.chA);
      case ADoes(l, now) =>
        GoodStep(n, ALocal(l, now));
        E.LocalGrows(s.a, l, now);
        ChannelGrows(s.a.log.sent, s'.a.log.sent, s.chB);
      case BDoes(l, now) =>
        GoodStep(n, BLocal(l, now));
        E.LocalGrows(s.b, l, now);
        ChannelGrows(s.b.log.sent, s'.b.log.sent, s.chA);
    }
  }

  lemma Position(sent: seq<Packet>, ch: Red.Channel)
    requires Red.ChannelInv(sent, ch)
    ensures ch.seqRx <= |sent|
  {
  }

  lemma StackInitInv(s: Stack)
    requires Init(NetOf(s)) && Empty(s.chA) && Empty(s.chB)
    ensures StackInv(s)
  {
    hide Init, R.NetInv, Inv, D.BothSound;
    R.InitNetInv(NetOf(s));
    InitInv(NetOf(s));
    D.InitSound(NetOf(s));
  }

  lemma {:induction false} StackRunInv(run: seq<Stack>, acts: seq<Act>, k: nat)
    requires IsStackRun(run, acts) && k < |run|
    ensures StackInv(run[k])
  {
    hide StackInv, ActStep, Init;
    if k == 0 {
      StackInitInv(run[0]);
    } else {
      StackRunInv(run, acts, k - 1);
      ActKeepsInv(run[k - 1], acts[k - 1], run[k]);
    }
  }

  /**
    The whole stack over an arbitrary network: no retransmission is ever needed, the expected PDU is
    never left in a defer queue, and what an application reads is a prefix of what the other one
    submitted, as long as its receive queue refused no message.  Once an endpoint that is Up has
    taken in all that was sent, it has buffered every batch the other one sent.
   */
  lemma StackDelivery(run: seq<Stack>, acts: seq<Act>, k: nat)
    requires IsStackRun(run, acts) && k < |run|
    ensures R.Ordinary(run[k].a) && R.Ordinary(run[k].b)
    ensures run[k].b.log.dropped == 0 ==> run[k].b.log.fetched <= run[k].a.log.submitted
    ensures run[k].a.log.dropped == 0 ==> run[k].a.log.fetched <= run[k].b.log.submitted
    ensures run[k].b.state == Up && run[k].chB.seqRx == |run[k].a.log.sent| ==>
              Payloads(run[k].b.log.accepted) == run[k].a.log.batches
    ensures run[k].a.state == Up && run[k].chA.seqRx == |run[k].b.log.sent| ==>
              Payloads(run[k].a.log.accepted) == run[k].b.log.batches
    ensures !Red.Holds(run[k].chA.queue, run[k].chA.seqRx) && !Red.Holds(run[k].chB.queue, run[k].chB.seqRx)
  {
    StackRunInv(run, acts, k);
    var s := run[k];
    PrefixOf(NetOf(s));
    if s.b.log.dropped == 0 {
      D.DeliveredPrefix(s.a, s.b);
    }
    if s.a.log.dropped == 0 {
      D.DeliveredPrefix(s.b, s.a);
    }
  }

  lemma PrefixOf(n: Net)
    requires R.NetInv(n)
    ensures Payloads(n.b.log.accepted) <= n.a.log.batches && Payloads(n.a.log.accepted) <= n.b.log.batches
    ensures n.b.state == Up && n.atB == |n.a.log.sent| ==> Payloads(n.b.log.accepted) == n.a.log.batches
    ensures n.a.state == Up && n.atA == |n.b.log.sent| ==> Payloads(n.a.log.accepted) == n.b.log.batches
  {
  }
}

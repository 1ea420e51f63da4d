/** What the applications at the two ends see: the run invariants in terms of messages. */
module Delivery {
  import opened Packets
  import opened SafetyLayer
  import opened Runs
  import opened LossyRuns
  import R = ReliableRuns
  import E = Endpoint

  // ----- both endpoints keep their books along every run -----

  predicate BothSound(n: Net) {
    E.Sound(n.a) && E.Unconfirmed(n.a) && E.Sound(n.b) && E.Unconfirmed(n.b)
  }

  lemma NextSound(n: Net, st: Step)
    requires Inv(n) && Enabled(n, st) && BothSound(n)
    ensures BothSound(Next(n, st))
  {
    hide Direction, E.Balanced, Receive, LocalStep;
    match st {
      case AReceives(env) => E.ApplySound(n.a, E.Arrives(n.b.log.sent[n.atA], env));
      case BReceives(env) => E.ApplySound(n.b, E.Arrives(n.a.log.sent[n.atB], env));
      case ALocal(e, now) => E.ApplySound(n.a, E.Happens(e, now));
      case BLocal(e, now) => E.ApplySound(n.b, E.Happens(e, now));
      case _ =>
    }
  }

  lemma InitSound(n: Net)
    requires Init(n)
    ensures BothSound(n)
  {
    var ca: Config, cb: Config, now: nat :| n == Net(Connected(Fresh(ca), now), Fresh(cb), 0, 0);
    E.BeginSound(n.a);
    E.BeginSound(n.b);
  }

  lemma {:induction false} RunSound(run: seq<Net>, steps: seq<Step>, k: nat)
    requires IsRun(run, steps) && k < |run|
    ensures BothSound(run[k])
  {
    hide BothSound, Inv, Init, Next;
    if k == 0 {
      InitSound(run[0]);
    } else {
      RunSound(run, steps, k - 1);
      RunInv(run, steps, k - 1);
      NextSound(run[k - 1], steps[k - 1]);
    }
  }

  // ----- from batches to messages -----

  lemma {:induction false} FlattenPrefix(bs: seq<seq<Message>>, cs: seq<seq<Message>>)
    requires bs <= cs
    ensures Flatten(bs) <= Flatten(cs)
    decreases |cs|
  {
    if |bs| == |cs| {
      assert bs == cs;
    } else {
      FlattenPrefix(bs, cs[..|cs| - 1]);
    }
  }

  lemma PayloadsInit(ps: seq<Packet>)
    requires ps != []
    ensures Payloads(ps)[..|ps| - 1] == Payloads(ps[..|ps| - 1]) && Payloads(ps)[|ps| - 1] == ps[|ps| - 1].batch
  {
  }

  /** Batches picked in order flatten to messages picked in order. */
  lemma {:induction false} InOrderFlatten(accepted: seq<Packet>, batches: seq<seq<Message>>)
    requires InOrderSubsequence(accepted, batches)
    ensures E.Subsequence(Flatten(Payloads(accepted)), Flatten(batches))
    decreases |batches|
  {
    if accepted != [] {
      var n, last := |batches| - 1, accepted[|accepted| - 1];
      var picked, all := Flatten(Payloads(accepted)), Flatten(batches[..n]);
      if last.origin == n {
        var rest := accepted[..|accepted| - 1];
        InOrderFlatten(rest, batches[..n]);
        PayloadsInit(accepted);
        E.SubsequenceExtend(Flatten(Payloads(rest)), all, last.batch, |last.batch|);
        assert last.batch[..|last.batch|] == last.batch;
      } else {
        InOrderFlatten(accepted, batches[..n]);
        E.SubsequenceExtend(picked, all, batches[n], 0);
        assert picked + batches[n][..0] == picked;
      }
    }
  }

  lemma DeliveredFromSubmitted(s: Conn, r: Conn)
    requires E.Sound(s) && E.Sound(r) && InOrderSubsequence(r.log.accepted, s.log.batches)
    ensures E.Subsequence(r.log.delivered, s.log.submitted)
    ensures E.Subsequence(r.log.fetched, s.log.submitted)
  {
    var all := Flatten(s.log.batches);
    InOrderFlatten(r.log.accepted, s.log.batches);
    E.SubsequenceTrans(r.log.delivered, Flatten(Payloads(r.log.accepted)), all);
    E.SubsequenceExtend(r.log.delivered, all, s.fifoSend, 0);
    assert r.log.delivered + s.fifoSend[..0] == r.log.delivered;
    E.SubsequenceRefl(r.log.fetched);
    E.SubsequenceExtend(r.log.fetched, r.log.fetched, r.fifoRecv, 0);
    assert r.log.fetched + r.fifoRecv[..0] == r.log.fetched;
    E.SubsequenceTrans(r.log.fetched, r.log.delivered, s.log.submitted);
  }

  lemma DeliveredPrefix(s: Conn, r: Conn)
    requires E.Sound(s) && E.Sound(r) && Payloads(r.log.accepted) <= s.log.batches && r.log.dropped == 0
    ensures r.log.delivered <= s.log.submitted && r.log.fetched <= s.log.submitted
  {
    FlattenPrefix(Payloads(r.log.accepted), s.log.batches);
  }

  // ----- the theorems -----

  /**
    Over channels that may lose PDUs: what either application reads is a subsequence of what the
    other one submitted.  Nothing is reordered, repeated or made up.
   */
  lemma LossyDelivery(run: seq<Net>, steps: seq<Step>, k: nat)
    requires IsRun(run, steps) && k < |run|
    ensures E.Subsequence(run[k].b.log.fetched, run[k].a.log.submitted)
    ensures E.Subsequence(run[k].a.log.fetched, run[k].b.log.submitted)
  {
    RunSound(run, steps, k);
    BufferedInOrderWithoutDuplicates(run, steps, k);
    DeliveredFromSubmitted(run[k].a, run[k].b);
    DeliveredFromSubmitted(run[k].b, run[k].a);
  }

  /**
    Over channels that lose nothing, and as long as the receive queue refused no message: what either
    application reads is a prefix of what the other one submitted.
   */
  lemma ReliableDelivery(run: seq<Net>, steps: seq<Step>, k: nat)
    requires R.IsReliableRun(run, steps) && k < |run|
    ensures run[k].b.log.dropped == 0 ==> run[k].b.log.fetched <= run[k].a.log.submitted
    ensures run[k].a.log.dropped == 0 ==> run[k].a.log.fetched <= run[k].b.log.submitted
  {
    RunSound(run, steps, k);
    R.BufferedIsExactPrefix(run, steps, k);
    if run[k].b.log.dropped == 0 {
      DeliveredPrefix(run[k].a, run[k].b);
    }
    if run[k].a.log.dropped == 0 {
      DeliveredPrefix(run[k].b, run[k].a);
    }
  }
}

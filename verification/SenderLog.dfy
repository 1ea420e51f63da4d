/**
  What the log and the retransmission queue of an endpoint look like, whoever its peer is: numbers
  and batches without gaps, whole bursts behind every response, and a queue that holds the last
  batches sent.
 */
module SenderLog {
  import opened Packets
  import opened SafetyLayer
  import opened Runs
  import opened Moves

  // ----- the log of a sender -----

  function NextSn(s: Tx, m: nat): nat {
    if m < |s.sent| then s.sent[m].sn else s.snT
  }

  /** The number of batches before position m, for control PDUs and at the end. */
  function NextOrigin(s: Tx, m: nat): nat {
    if m < |s.sent| then s.sent[m].origin else |s.batches|
  }

  /** The first batch that is still queued. */
  function QueueStart(s: Tx): int {
    |s.batches| - |s.fifo|
  }

  function Increment(p: Packet): nat {
    if p.kind.DiscReq? then 0 else 1
  }

  /** How many batches there are behind p. */
  function Count(p: Packet): nat {
    p.origin + if Bears(p) then 1 else 0
  }

  predicate InBurst(p: Packet) {
    p.kind == RetrData || p.kind == Heartbeat
  }

  /** A response and a retransmitted PDU are followed by the rest of the burst. */
  predicate Unfinished(p: Packet) {
    p.kind == RetrResp || p.kind == RetrData
  }

  /**
    q can be sent right behind p: it has the next number, unless p is a disconnection request, and
    carries the next batch or counts as many, unless p is a response.
   */
  predicate Succeeds(p: Packet, q: Packet) {
    && q.sn == p.sn + Increment(p)
    && (p.kind == RetrResp || q.origin == Count(p))
    && (Unfinished(p) ==> InBurst(q))
  }

  predicate Linked(ps: seq<Packet>) {
    forall m :: 0 < m < |ps| ==> Succeeds(ps[m - 1], ps[m])
  }

  /** What is sent next has this number and counts n batches. */
  predicate Ends(ps: seq<Packet>, snT: nat, n: nat) {
    if ps == [] then n == 0
    else
      var p := ps[|ps| - 1];
      ps[0].origin == 0 && snT == p.sn + Increment(p) && n == Count(p) && !Unfinished(p)
  }

  predicate Below(ps: seq<Packet>, snT: nat) {
    forall m :: 0 <= m < |ps| ==> ps[m].sn + Increment(ps[m]) <= snT
  }

  /** A batch comes before every count that includes it. */
  predicate Tagged(ps: seq<Packet>, n: nat) {
    && (forall m :: 0 <= m < |ps| && Bears(ps[m]) ==> ps[m].origin < n)
    && (forall l, m :: 0 <= l < m < |ps| && Bears(ps[l]) && !Bears(ps[m]) ==> ps[l].origin < ps[m].origin)
  }

  predicate LogPart(s: Tx) {
    Linked(s.sent) && Ends(s.sent, s.snT, |s.batches|) && Below(s.sent, s.snT) && Tagged(s.sent, |s.batches|)
  }

  /** The queue holds the last batches, all of them, in order. */
  predicate QueueIsSuffix(s: Tx) {
    && |s.fifo| <= |s.batches|
    && (forall k :: 0 <= k < |s.fifo| ==> s.fifo[k].origin == QueueStart(s) + k && 0 < s.fifo[k].sn < s.snT)
    && (forall k, l :: 0 <= k < l < |s.fifo| ==> s.fifo[k].sn < s.fifo[l].sn)
  }

  /** A queued number belongs to its batch alone. */
  predicate Filed(s: Tx) {
    forall m, k :: 0 <= m < |s.sent| && 0 <= k < |s.fifo| && s.sent[m].sn == s.fifo[k].sn && !s.sent[m].kind.DiscReq? ==>
      Bears(s.sent[m]) && s.sent[m].origin == s.fifo[k].origin
  }

  predicate Landmark(p: Packet) {
    p.kind == RetrResp || p.kind == ConnReq || p.kind == ConnResp
  }

  /** The queue lies behind every response and behind the handshake. */
  predicate QueueBehind(s: Tx) {
    forall m, k :: 0 <= m < |s.sent| && 0 <= k < |s.fifo| && Landmark(s.sent[m]) ==> s.sent[m].sn < s.fifo[k].sn
  }

  /** What followed a response started no later than the queue starts now. */
  predicate Resumed(s: Tx) {
    forall m :: 0 < m < |s.sent| && s.sent[m - 1].kind == RetrResp ==> s.sent[m].origin <= QueueStart(s)
  }

  predicate Opens(ps: seq<Packet>) {
    forall m :: 0 <= m < |ps| && Landmark(ps[m]) && ps[m].kind != RetrResp ==> ps[m].origin == 0
  }

  /** Nothing queued is numbered below the first PDU. */
  predicate Started(s: Tx) {
    forall k :: 0 <= k < |s.fifo| ==> s.sent != [] && s.sent[0].sn <= s.fifo[k].sn
  }

  predicate QueuePart(s: Tx) {
    QueueIsSuffix(s) && Filed(s) && QueueBehind(s) && Resumed(s) && Opens(s.sent) && Started(s)
  }

  predicate InOrder(s: Tx) {
    LogPart(s) && QueuePart(s)
  }

  // ----- every move keeps the log -----

  lemma LinkedJoin(ps: seq<Packet>, qs: seq<Packet>)
    requires Linked(ps) && Linked(qs)
    requires ps != [] && qs != [] ==> Succeeds(ps[|ps| - 1], qs[0])
    ensures Linked(ps + qs)
  {
    forall m | 0 < m < |ps + qs|
      ensures Succeeds((ps + qs)[m - 1], (ps + qs)[m])
    {
      if m > |ps| {
        assert Succeeds(qs[m - |ps| - 1], qs[m - |ps|]);
      }
    }
  }

  lemma BelowJoin(ps: seq<Packet>, qs: seq<Packet>, snT: nat, snT': nat)
    requires Below(ps, snT) && Below(qs, snT') && snT <= snT'
    ensures Below(ps + qs, snT')
  {
  }

  lemma TaggedJoin(ps: seq<Packet>, qs: seq<Packet>, n: nat, n': nat)
    requires Tagged(ps, n) && Tagged(qs, n') && n <= n'
    requires forall m :: 0 <= m < |qs| && !Bears(qs[m]) ==> qs[m].origin >= n
    ensures Tagged(ps + qs, n')
  {
  }

  lemma AppendKeepsLog(s: Tx, ps: seq<Packet>, s': Tx)
    requires LogPart(s) && s'.sent == s.sent + ps && |s.batches| <= |s'.batches| && s.snT <= s'.snT
    requires ps != [] && ps[0].sn == s.snT && ps[0].origin == |s.batches|
    requires Linked(ps) && Below(ps, s'.snT) && Tagged(ps, |s'.batches|)
    requires forall m :: 0 <= m < |ps| && !Bears(ps[m]) ==> ps[m].origin >= |s.batches|
    requires
      var p := ps[|ps| - 1];
      s'.snT == p.sn + Increment(p) && |s'.batches| == Count(p) && !Unfinished(p)
    ensures LogPart(s')
  {
    hide Linked, Below, Tagged;
    LinkedJoin(s.sent, ps);
    BelowJoin(s.sent, ps, s.snT, s'.snT);
    TaggedJoin(s.sent, ps, |s.batches|, |s'.batches|);
  }

  /** The PDUs of an answer. */
  function Answer(m: Move): seq<Packet>
    requires m.Again?
  {
    [m.resp] + m.burst + [m.last]
  }

  lemma AnswerPdus(s: Tx, m: Move)
    requires m.Again? && Possible(s, m) && QueueIsSuffix(s)
    ensures
      var ps, n := Answer(m), |m.burst|;
      && |ps| == n + 2 && ps[0] == m.resp && ps[n + 1] == m.last
      && forall k :: 0 <= k < |ps| ==>
           && ps[k].sn == s.snT + k
           && (0 < k <= n ==> ps[k].kind == RetrData && ps[k].origin == QueueStart(s) + k - 1)
  {
    var ps, n := Answer(m), |m.burst|;
    forall k | 0 < k <= n ensures ps[k] == m.burst[k - 1] {
    }
  }

  lemma AgainKeepsLog(s: Tx, m: Move)
    requires LogPart(s) && QueueIsSuffix(s) && m.Again? && Possible(s, m)
    ensures LogPart(Moved(s, m))
  {
    var ps, s' := Answer(m), Moved(s, m);
    AnswerPdus(s, m);
    assert s'.sent == s.sent + ps;
    hide Answer, IsBurst;
    AppendKeepsLog(s, ps, s');
  }

  lemma SpeakingKeepsLog(s: Tx, m: Move)
    requires LogPart(s) && Possible(s, m) && (m.Say? || m.First?)
    ensures LogPart(Moved(s, m))
  {
    AppendKeepsLog(s, [m.p], Moved(s, m));
  }

  lemma DropKeepsQueue(s: Tx, cs: nat)
    requires QueuePart(s)
    ensures QueuePart(Moved(s, Drop(cs)))
  {
    var k := PopConfirmedIsSuffix(s.fifo, cs);
  }

  lemma SayKeepsQueue(s: Tx, p: Packet)
    requires QueuePart(s) && LogPart(s) && Possible(s, Say(p))
    ensures QueuePart(Moved(s, Say(p)))
  {
    hide Linked, Tagged, Below;
    var s' := Moved(s, Say(p));
    assert Filed(s') && QueueBehind(s') && Started(s');
    hide Filed, QueueBehind, Started;
  }

  lemma FirstKeepsFiled(s: Tx, p: Packet)
    requires QueuePart(s) && Below(s.sent, s.snT) && Possible(s, First(p)) && s.snT > 0
    ensures QueueIsSuffix(Moved(s, First(p))) && Filed(Moved(s, First(p)))
  {
    hide QueueBehind, Resumed, Opens;
  }

  lemma FirstKeepsBehind(s: Tx, p: Packet)
    requires QueuePart(s) && LogPart(s) && Possible(s, First(p)) && s.snT > 0
    ensures
      var s' := Moved(s, First(p));
      QueueBehind(s') && Resumed(s') && Opens(s'.sent) && Started(s')
  {
    hide Linked, Tagged, Filed;
  }

  lemma AnswerIsAppended(s: Tx, m: Move)
    requires m.Again?
    ensures Moved(s, m).sent == s.sent + Answer(m)
  {
  }

  lemma AgainKeepsFiled(s: Tx, m: Move)
    requires QueuePart(s) && Below(s.sent, s.snT) && m.Again? && Possible(s, m)
    ensures QueueIsSuffix(Moved(s, m)) && Filed(Moved(s, m))
  {
    AnswerPdus(s, m);
    AnswerIsAppended(s, m);
    hide Answer, QueueBehind, Resumed, Opens;
  }

  lemma AgainKeepsBehind(s: Tx, m: Move)
    requires QueuePart(s) && Below(s.sent, s.snT) && m.Again? && Possible(s, m)
    ensures QueueBehind(Moved(s, m)) && Opens(Moved(s, m).sent) && Started(Moved(s, m))
  {
    AnswerPdus(s, m);
    AnswerIsAppended(s, m);
    hide Answer, Filed, Resumed;
  }

  lemma AgainKeepsResumed(s: Tx, m: Move)
    requires QueuePart(s) && Ends(s.sent, s.snT, |s.batches|) && m.Again? && Possible(s, m)
    ensures Resumed(Moved(s, m))
  {
    AnswerPdus(s, m);
    AnswerIsAppended(s, m);
    hide Answer, Filed, QueueBehind, Opens;
  }

  lemma MoveKeepsLog(s: Tx, m: Move)
    requires InOrder(s) && Possible(s, m) && (m.First? ==> s.snT > 0)
    ensures InOrder(Moved(s, m))
  {
    match m {
      case Drop(cs) => DropKeepsQueue(s, cs);
      case Say(p) => SpeakingKeepsLog(s, m); SayKeepsQueue(s, p);
      case First(p) => SpeakingKeepsLog(s, m); FirstKeepsFiled(s, p); FirstKeepsBehind(s, p);
      case Again(_, _, _) => AgainKeepsLog(s, m); AgainKeepsFiled(s, m); AgainKeepsBehind(s, m); AgainKeepsResumed(s, m);
    }
  }

  // ----- positions in a log -----

  /** Numbers do not go down. */
  lemma {:induction false} NumbersRise(s: Tx, m: nat, n: nat)
    requires InOrder(s) && m <= n < |s.sent|
    ensures s.sent[m].sn <= s.sent[n].sn
    ensures m < n && !s.sent[m].kind.DiscReq? ==> s.sent[m].sn < s.sent[n].sn
  {
    if m < n {
      NumbersRise(s, m, n - 1);
      assert Succeeds(s.sent[n - 1], s.sent[n]);
    }
  }

  /** Every number from the first one on was used. */
  lemma {:induction false} NumberIsUsed(s: Tx, sn: nat, n: nat) returns (m: nat)
    requires InOrder(s) && n < |s.sent| && s.sent[0].sn <= sn
    requires sn < s.sent[n].sn + Increment(s.sent[n])
    ensures m <= n && s.sent[m].sn == sn && !s.sent[m].kind.DiscReq?
  {
    if s.sent[n].sn == sn && !s.sent[n].kind.DiscReq? {
      m := n;
    } else {
      assert n > 0 ==> Succeeds(s.sent[n - 1], s.sent[n]);
      m := NumberIsUsed(s, sn, n - 1);
    }
  }

  /** While a control PDU counts no batch, everything queued was sent behind it. */
  lemma QueuedBehindNone(s: Tx, m: nat, k: nat)
    requires InOrder(s) && m < |s.sent| && !Bears(s.sent[m]) && !s.sent[m].kind.DiscReq? && s.sent[m].origin == 0
    requires k < |s.fifo|
    ensures s.fifo[k].sn > s.sent[m].sn
  {
    if s.fifo[k].sn <= s.sent[m].sn {
      var l := NumberIsUsed(s, s.fifo[k].sn, m);
    }
  }
}

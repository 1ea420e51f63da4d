/**
  Confirmed numbers and timestamps.  Over every history of an endpoint each PDU it sent carries the
  clock of the event that sent it, and confirms the number and the timestamp of the last PDU noted.
 */
module Timestamps {
  import opened Packets
  import opened SafetyLayer
  import opened Transitions
  import E = Endpoint

  function Clock(e: E.Event): nat {
    match e
    case Arrives(_, env) => env.now
    case Happens(_, now) => now
  }

  /** What a PDU gives to be confirmed. */
  datatype Mark = Mark(sn: nat, ts: nat)

  predicate Notes(c: Conn, e: E.Event) {
    e.Arrives? && RowOf(c, e.p, e.env.versionOk).notes
  }

  /** The last arrival that was noted during the first k events; zeros before any. */
  function LastNoted(cs: seq<Conn>, es: seq<E.Event>, k: nat): Mark
    requires |cs| == |es| + 1 && k <= |es|
  {
    if k == 0 then Mark(0, 0)
    else if Notes(cs[k - 1], es[k - 1]) then Mark(es[k - 1].p.sn, es[k - 1].p.ts)
    else LastNoted(cs, es, k - 1)
  }

  /** One event: what is recorded behind it, and how its PDUs are marked. */
  lemma EventMarks(c: Conn, e: E.Event)
    ensures
      var c' := E.Apply(c, e);
      && Mark(c'.csT, c'.tsR) == (if Notes(c, e) then Mark(e.p.sn, e.p.ts) else Mark(c.csT, c.tsR))
      && c'.cfg == c.cfg && c.log.sent <= c'.log.sent
      && forall m :: |c.log.sent| <= m < |c'.log.sent| ==>
           var q := c'.log.sent[m];
           match q.kind
           case DiscReq => Marked(q, c, Clock(e), c.csT, c.tsR)
           case ConnResp => e.Arrives? && Marked(q, c, Clock(e), c'.csT, e.p.cts)
           case _ => Marked(q, c, Clock(e), c'.csT, c'.tsR)
  {
    hide Receive, LocalStep, Controls, RowOf, Counted;
    match e {
      case Arrives(p, env) => ArrivalFollowsTable(c, p, env);
      case Happens(l, now) => LocalFollowsTable(c, l, now); NoConnResp(c, l, now);
    }
  }

  /** Only an arriving request is answered with a connection response. */
  lemma NoConnResp(c: Conn, l: Local, now: nat)
    ensures
      var c' := LocalStep(c, l, now);
      forall m :: |c.log.sent| <= m < |c'.log.sent| ==> !c'.log.sent[m].kind.ConnResp?
  {
    hide DataSend, Enqueue;
    FlushOnlyData(c, now);
    if l.AppSends? {
      EnqueueOnlyData(c, l.messages, now);
    }
  }

  /** sr_connect sends one connection request, which confirms nothing, and waits for the response. */
  lemma ConnectionRequest(c: Conn, now: nat)
    ensures
      var c' := Connected(c, now);
      && c'.state == Start && c'.role == Client && c'.hbLocked && c'.errors == NO_ERRORS
      && c'.snI == c.cfg.initialSn && c'.snT == c.cfg.initialSn + 1 && c'.csT == 0 && c'.ctsR == now
      && |c'.log.sent| == |c.log.sent| + 1 && c.log.sent <= c'.log.sent
      && var q := c'.log.sent[|c.log.sent|];
      q.kind == ConnReq && q.sn == c.cfg.initialSn && Marked(q, c, now, 0, 0)
  {
  }

  lemma BeginMarks(c: Conn)
    requires E.Begins(c)
    ensures c.csT == 0 && c.tsR == 0 && |c.log.sent| <= 1
    ensures c.log.sent != [] ==> c.log.sent[0].kind == ConnReq && Marked(c.log.sent[0], c, c.ctsR, 0, 0)
  {
  }

  lemma {:induction false} ConfigStays(cs: seq<Conn>, es: seq<E.Event>, j: nat, k: nat)
    requires E.IsHistory(cs, es) && j <= k < |cs|
    ensures cs[k].cfg == cs[j].cfg && cs[j].log.sent <= cs[k].log.sent
  {
    hide E.Begins, E.Apply;
    if j < k {
      ConfigStays(cs, es, j, k - 1);
      EventMarks(cs[k - 1], es[k - 1]);
    }
  }

  /** The connection confirms what was noted last. */
  lemma {:induction false} ConfirmsLastNoted(cs: seq<Conn>, es: seq<E.Event>, k: nat)
    requires E.IsHistory(cs, es) && k < |cs|
    ensures Mark(cs[k].csT, cs[k].tsR) == LastNoted(cs, es, k)
  {
    hide E.Begins, E.Apply;
    if k == 0 {
      BeginMarks(cs[0]);
    } else {
      ConfirmsLastNoted(cs, es, k - 1);
      EventMarks(cs[k - 1], es[k - 1]);
    }
  }

  /** How event j marks a PDU that it sends. */
  predicate MarkedBy(q: Packet, cs: seq<Conn>, es: seq<E.Event>, j: nat)
    requires |cs| == |es| + 1 && j < |es|
  {
    var before, behind := LastNoted(cs, es, j), LastNoted(cs, es, j + 1);
    match q.kind
    case DiscReq => Marked(q, cs[j], Clock(es[j]), before.sn, before.ts)
    case ConnResp => es[j].Arrives? && Marked(q, cs[j], Clock(es[j]), behind.sn, es[j].p.cts)
    case _ => Marked(q, cs[j], Clock(es[j]), behind.sn, behind.ts)
  }

  lemma SentNowIsMarked(cs: seq<Conn>, es: seq<E.Event>, j: nat, m: nat)
    requires E.IsHistory(cs, es) && j < |es| && |cs[j].log.sent| <= m < |cs[j + 1].log.sent|
    ensures MarkedBy(cs[j + 1].log.sent[m], cs, es, j)
  {
    hide E.Begins, E.Apply, LastNoted, Marked;
    ConfirmsLastNoted(cs, es, j);
    ConfirmsLastNoted(cs, es, j + 1);
    EventMarks(cs[j], es[j]);
  }

  /** The m-th PDU was sent by event j. */
  predicate SentBy(cs: seq<Conn>, m: nat, j: nat) {
    j + 1 < |cs| && |cs[j].log.sent| <= m < |cs[j + 1].log.sent|
  }

  /**
    In every history each PDU sent is the connection request the endpoint began with, confirming
    nothing, or was sent by one of the events: it carries the identities of the connection, the clock
    of that event, and the number and timestamp of the last arrival noted by then.  A disconnection
    request is sent before the arrival that provoked it is noted; a connection response returns the
    confirmed timestamp of the request.
   */
  lemma {:induction false} EveryPduIsMarked(cs: seq<Conn>, es: seq<E.Event>, k: nat, m: nat)
    requires E.IsHistory(cs, es) && k < |cs| && m < |cs[k].log.sent|
    ensures
      var q := cs[k].log.sent[m];
      || (m == 0 && cs[0].log.sent == [q] && q.kind == ConnReq && Marked(q, cs[0], cs[0].ctsR, 0, 0))
      || (exists j :: 0 <= j < k && SentBy(cs, m, j) && MarkedBy(q, cs, es, j))
  {
    hide E.Begins, E.Apply, MarkedBy, Marked;
    if k == 0 {
      BeginMarks(cs[0]);
    } else {
      ConfigStays(cs, es, k - 1, k);
      if m < |cs[k - 1].log.sent| {
        EveryPduIsMarked(cs, es, k - 1, m);
      } else {
        SentNowIsMarked(cs, es, k - 1, m);
        assert SentBy(cs, m, k - 1);
      }
    }
  }
}

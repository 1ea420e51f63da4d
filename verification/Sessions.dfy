/** A connection object through a whole first session: the theorems of module Endpoint hold of it. */
module Sessions {
  import opened Packets
  import opened Fifos
  import opened SL = SafetyLayer
  import opened SrConnection
  import E = Endpoint

  /** One event at the object. */
  method Handle(c: Connection, e: E.Event)
    requires c.Valid()
    modifies c, c.fifoSend.Repr, c.fifoRetr.Repr, c.fifoRecv.Repr
    ensures c.Valid() && c.Grown() && c.View() == E.Apply(old(c.View()), e)
  {
    hide Fifo.Valid, Fifo.Contents, SL.Receive, SL.Submit, SL.Fetch, SL.DataSend;
    match e {
      case Arrives(p, env) => c.Receive(p, env);
      case Happens(l, now) =>
        match l {
          case AppSends(ms) => var result := c.Submit(ms, now);
          case AppFetches => var m := c.Fetch();
          case AppDisconnects => c.Close(now);
          case FlushTimer => c.DataSend(now);
          case HeartbeatTimer => c.HeartbeatTick(now);
          case TimeoutTimer => c.Expire(now);
          case TransportsLost => c.Reset();
        }
    }
  }

  /** The next event would open a second session. */
  method OpensAgain(c: Connection, e: E.Event) returns (b: bool)
    requires c.Valid()
    ensures b <==> !E.FirstSession(c.View(), e)
  {
    b := e.Arrives? && e.p.kind == ConnReq && (c.state == Closed || c.state == Down) && c.log.sent != [];
  }

  /** A new connection; a client dials at once. */
  method Begin(cfg: Config, dials: bool, now: nat) returns (c: Connection)
    ensures c.Valid() && fresh(c) && fresh(c.fifoSend.Repr) && fresh(c.fifoRetr.Repr) && fresh(c.fifoRecv.Repr)
    ensures E.Begins(c.View())
  {
    c := new Connection(cfg);
    if dials {
      c.Connect(now);
    }
  }

  /**
    From creation, and for a client from its connection request, through any events with any peer, up
    to an event that would open a second session: the object passes through a history of module
    Endpoint.  What it sent, queued and buffered is sound at the end, whatever arrived.
   */
  method RunSession(cfg: Config, dials: bool, now: nat, es: seq<E.Event>)
    returns (c: Connection, n: nat, ghost history: seq<Conn>)
    ensures c.Valid() && n <= |es| && |history| == n + 1 && E.IsHistory(history, es[..n]) && history[n] == c.View()
    ensures n < |es| ==> !E.FirstSession(c.View(), es[n])
    ensures E.Sound(c.View())
    ensures c.log.submitted == Flatten(c.log.batches) + c.fifoSend.Contents()
    ensures c.log.delivered == c.log.fetched + c.fifoRecv.Contents()
    ensures c.log.sent != [] ==> c.csR < c.snT
  {
    hide E.Apply, E.FirstSession, E.Sound, E.IsHistory, E.Begins, Fifo.Valid, Fifo.Contents;
    c := Begin(cfg, dials, now);
    history := [c.View()];
    HistoryStarts(c.View(), es);
    n := 0;
    while n < |es|
      invariant c.Valid() && fresh(c) && fresh(c.fifoSend.Repr) && fresh(c.fifoRetr.Repr) && fresh(c.fifoRecv.Repr)
      invariant n <= |es| && |history| == n + 1 && E.IsHistory(history, es[..n]) && history[n] == c.View()
    {
      var again := OpensAgain(c, es[n]);
      if again {
        break;
      }
      Handle(c, es[n]);
      HistoryGrows(history, es, n, c.View());
      history := history + [c.View()];
      n := n + 1;
    }
    HistoryFacts(history, es[..n], c.View());
  }

  lemma HistoryStarts(c: Conn, es: seq<E.Event>)
    requires E.Begins(c)
    ensures E.IsHistory([c], es[..0])
  {
  }

  lemma HistoryGrows(history: seq<Conn>, es: seq<E.Event>, n: nat, next: Conn)
    requires n < |es| && n < |history| && E.IsHistory(history, es[..n]) && E.FirstSession(history[n], es[n])
    requires next == E.Apply(history[n], es[n])
    ensures E.IsHistory(history + [next], es[..n + 1])
  {
    hide E.Apply, E.FirstSession, E.Begins;
    assert forall k :: 0 <= k < n ==> es[..n + 1][k] == es[..n][k];
  }

  lemma HistoryFacts(history: seq<Conn>, es: seq<E.Event>, c: Conn)
    requires |history| == |es| + 1 && E.IsHistory(history, es) && history[|es|] == c
    ensures E.Sound(c)
    ensures c.log.submitted == Flatten(c.log.batches) + c.fifoSend
    ensures c.log.delivered == c.log.fetched + c.fifoRecv
    ensures c.log.sent != [] ==> c.csR < c.snT
  {
    E.HistorySound(history, es, |es|);
  }
}

/** What every step of the joined client and server keeps, as long as neither session has failed. */
module AuthInvariant {
  import opened Session
  import opened SessionRuns
  import opened AuthProtocol
  import opened AuthSummaries

  /** How many device ids, device infos, close acks and session keys a queue holds. */
  datatype Tally = Tally(ids: nat, infos: nat, acks: nat, keys: nat)
  {
    function Plus(t: Tally): Tally { Tally(ids + t.ids, infos + t.infos, acks + t.acks, keys + t.keys) }
  }

  function Bit(b: bool): nat { if b then 1 else 0 }

  function One(m: Msg): Tally
  {
    Tally(Bit(m.RecvDeviceId?), Bit(m.RecvDeviceInfo?), Bit(m.RecvCloseAck?), Bit(m.SaveSessionKey?))
  }

  function Count(q: seq<Msg>): Tally
  {
    if q == [] then Tally(0, 0, 0, 0) else One(q[0]).Plus(Count(q[1..]))
  }

  lemma CountHead(q: seq<Msg>)
    requires q != []
    ensures Count(q) == One(q[0]).Plus(Count(q[1..]))
  {
  }

  lemma {:induction false} CountAdd(a: seq<Msg>, b: seq<Msg>)
    ensures Count(a + b) == Count(a).Plus(Count(b))
  {
    if a == [] {
      assert a + b == b;
    } else {
      assert (a + b)[1..] == a[1..] + b;
      CountAdd(a[1..], b);
    }
  }

  /** Everything on its way to one session: its queue, then its link. */
  function PipeC(y: Sys): seq<Msg> { y.clientQueue + y.toClient }

  function PipeS(y: Sys): seq<Msg> { y.serverQueue + y.toServer }

  /** The sessions and what is on its way, with the order of messages forgotten. */
  datatype View = View(c: Session, s: Session, started: bool, tc: Tally, ts: Tally)

  function Look(y: Sys): View { View(y.client, y.server, y.started, Count(PipeC(y)), Count(PipeS(y))) }

  /** Reading from the head, a device id comes before any device info. */
  predicate Covered(q: seq<Msg>)
  {
    q != [] ==> q[0].RecvDeviceId? || (!q[0].RecvDeviceInfo? && Covered(q[1..]))
  }

  /** The session has sent its device info. */
  predicate InfoSent(s: Session)
  {
    if s.link.Wifi? && s.isServer then s.nodeInfo else s.keySaved
  }

  predicate Roles(v: View)
  {
    !v.c.isServer && v.s.isServer && v.c.link == v.s.link && Sane(v.c) && Sane(v.s)
  }

  /** One device id is under way exactly while the client waits in the first state. */
  predicate IdToken(v: View)
  {
    && v.ts.ids + v.tc.ids == Bit(v.c.phase == SyncDeviceId)
    && (v.started ==> v.c.phase != SyncDeviceId)
    && (v.ts.ids > 0 ==> v.s.phase != SyncDeviceInfo)
    && (v.tc.ids > 0 || v.c.phase != SyncDeviceId ==> v.s.phase != SyncDeviceId)
  }

  /** Session keys appear only where they can be saved. */
  predicate Keys(v: View)
  {
    (v.tc.keys > 0 ==> v.c.phase != SyncDeviceId) && (v.ts.keys > 0 ==> v.s.phase != SyncDeviceId)
  }

  /** Device info and close acks are conserved: sent once, then on the way, kept early, or recorded. */
  predicate Conserved(v: View)
  {
    && v.tc.infos + Bit(v.c.early) + Bit(v.c.nodeInfo) == Bit(InfoSent(v.s))
    && v.ts.infos + Bit(v.s.early) + Bit(v.s.nodeInfo) == Bit(InfoSent(v.c))
    && (if v.c.link.Wifi? then v.tc.acks == v.ts.acks == 0
        else
          && v.tc.acks + Bit(v.c.closeAck) == Bit(v.s.nodeInfo)
          && v.ts.acks + Bit(v.s.closeAck) == Bit(v.c.nodeInfo))
  }

  /** A session that ended without failing had everything it needed. */
  predicate Finished(s: Session)
  {
    s.isDead ==> s.nodeInfo && s.closeAck
  }

  predicate Core(v: View)
  {
    IdToken(v) && Keys(v) && Conserved(v) && Finished(v.c) && Finished(v.s)
  }

  /**
   The server went on fast while the client went back: the client waits for a device id that the server
   will not send, and neither gets any further.
   */
  predicate Stuck(v: View)
  {
    && v.c.phase == SyncDeviceId && v.s.phase == SyncDeviceInfo && !v.c.isDead && !v.s.isDead
    && v.tc.ids == 0 && v.ts.infos == 0 && v.tc.acks == 0 && v.ts.acks == 0 && !v.s.nodeInfo
  }

  /** The order of messages on the way to the client. */
  predicate Lined(y: Sys)
  {
    y.client.phase == SyncDeviceId ==> Covered(PipeC(y))
  }

  predicate Inv(y: Sys)
  {
    && Roles(Look(y)) && (y.failed ==> y.client.isDead || y.server.isDead)
    && (!y.failed ==> (Core(Look(y)) && Lined(y)) || Stuck(Look(y)))
    && (!y.failed ==> (y.client.isDead ==> y.client.passed) && (y.server.isDead ==> y.server.passed))
  }

  // ------------------------------------------------------ order on the way to the client

  lemma {:induction false} CoveredPrepend(x: seq<Msg>, b: seq<Msg>)
    requires Covered(b) && Count(x).infos == 0
    ensures Covered(x + b)
  {
    hide Count;
    if x == [] {
      assert x + b == b;
    } else {
      CountHead(x);
      assert (x + b)[1..] == x[1..] + b;
      CoveredPrepend(x[1..], b);
    }
  }

  lemma {:induction false} CoveredInsert(a: seq<Msg>, x: seq<Msg>, b: seq<Msg>)
    requires Covered(a + b) && Count(x).infos == 0
    ensures Covered(a + x + b)
  {
    hide Count;
    if a == [] {
      assert a + b == b && a + x + b == x + b;
      CoveredPrepend(x, b);
    } else if !a[0].RecvDeviceId? {
      assert (a + b)[1..] == a[1..] + b;
      CoveredInsert(a[1..], x, b);
      assert (a + x + b)[1..] == a[1..] + x + b;
    }
  }

  lemma {:induction false} CoveredNone(q: seq<Msg>)
    requires Count(q).infos == 0
    ensures Covered(q)
  {
    if q != [] { CoveredNone(q[1..]); }
  }

  /** Appending is safe once a device id is ahead, or when no device info is appended. */
  lemma {:induction false} CoveredAppend(q: seq<Msg>, x: seq<Msg>)
    requires Covered(q) && (Count(q).ids > 0 || Count(x).infos == 0)
    ensures Covered(q + x)
  {
    if q == [] {
      assert q + x == x;
      CoveredNone(x);
    } else {
      assert (q + x)[1..] == q[1..] + x;
      if !q[0].RecvDeviceId? { CoveredAppend(q[1..], x); }
    }
  }

  // ------------------------------------------------------ what a step does to the pipes

  lemma ClientPipes(y: Sys, o: Outcome)
    requires y.clientQueue != []
    ensures var y' := ClientHandles(y, o);
      && Count(PipeC(y')).Plus(One(y.clientQueue[0])) == Count(PipeC(y)).Plus(Count(Posted(o.out)))
      && Count(PipeS(y')) == Count(PipeS(y)).Plus(Count(Sent(o.out)))
  {
    hide Posted, Sent, Fails, Count;
    var y' := ClientHandles(y, o);
    CountHead(y.clientQueue);
    var rest := y.clientQueue[1..];
    CountAdd(y.clientQueue, y.toClient);
    CountAdd(rest + Posted(o.out), y.toClient);
    CountAdd(rest, Posted(o.out));
    assert PipeS(y') == PipeS(y) + Sent(o.out);
    CountAdd(PipeS(y), Sent(o.out));
  }

  lemma ServerPipes(y: Sys, o: Outcome)
    requires y.serverQueue != []
    ensures var y' := ServerHandles(y, o);
      && Count(PipeS(y')).Plus(One(y.serverQueue[0])) == Count(PipeS(y)).Plus(Count(Posted(o.out)))
      && Count(PipeC(y')) == Count(PipeC(y)).Plus(Count(Sent(o.out)))
  {
    hide Posted, Sent, Fails, Count;
    var y' := ServerHandles(y, o);
    CountHead(y.serverQueue);
    var rest := y.serverQueue[1..];
    CountAdd(y.serverQueue, y.toServer);
    CountAdd(rest + Posted(o.out), y.toServer);
    CountAdd(rest, Posted(o.out));
    assert PipeC(y') == PipeC(y) + Sent(o.out);
    CountAdd(PipeC(y), Sent(o.out));
  }

  lemma CountShort(q: seq<Msg>)
    ensures |q| == 0 ==> Count(q) == Tally(0, 0, 0, 0)
    ensures |q| == 1 ==> Count(q) == One(q[0])
    ensures |q| == 2 ==> Count(q) == One(q[0]).Plus(One(q[1]))
  {
    if |q| == 2 { assert Count(q[1..]) == One(q[1]); }
  }
}

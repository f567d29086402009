/** Safety over every run of the joined sessions, and what is true when nothing is left to do. */
module AuthTheorems {
  import opened Session
  import opened SessionRuns
  import opened AuthProtocol
  import opened AuthSummaries
  import opened AuthInvariant
  import opened AuthSteps

  // ------------------------------------------------------ one step

  lemma {:induction false} FailureCounts(out: seq<Effect>)
    requires Fails(out)
    ensures Completions(out) > 0
  {
    var e :| e in out && e.Completed? && e.result != Ok;
    var n := |out| - 1;
    if out[n] != e {
      assert e in out[..n];
      FailureCounts(out[..n]);
    }
  }

  lemma {:induction false} SuccessCounts(out: seq<Effect>)
    requires Completions(out) > 0 && !Fails(out)
    ensures Completed(Ok) in out
  {
    var n := |out| - 1;
    if out[n].Completed? {
      assert out[n] in out;
    } else {
      FailsAdd(out[..n], [out[n]]);
      assert out[..n] + [out[n]] == out;
      SuccessCounts(out[..n]);
    }
  }

  /** A message keeps a session on its side of its link, sane, and dead if it fails. */
  lemma HandlingKeeps(s: Session, i: Input)
    requires Sane(s)
    ensures var o := Process(s, i.m, i.w);
      && Sane(o.s) && o.s.isServer == s.isServer && o.s.link == s.link
      && (Fails(o.out) || s.isDead ==> o.s.isDead)
      && (o.s.isDead && !s.isDead && !Fails(o.out) ==> o.s.passed)
  {
    hide Process, Sane, Fails;
    var o := Process(s, i.m, i.w);
    ProcessOk(s, i.m, i.w);
    if Fails(o.out) {
      FailureCounts(o.out);
    } else if o.s.isDead && !s.isDead {
      SuccessCounts(o.out);
    }
  }

  lemma {:induction false} PipeHead(q: seq<Msg>, rest: seq<Msg>)
    requires q != []
    ensures (q + rest)[0] == q[0] && Holds(Count(q + rest), q[0])
  {
    assert (q + rest)[0] == q[0];
  }

  lemma ClientLined(y: Sys, o: Outcome)
    requires y.clientQueue != [] && Lined(y)
    requires o.s.phase == SyncDeviceId ==>
      || (y.client.phase == SyncDeviceId && !y.clientQueue[0].RecvDeviceId? && Count(Posted(o.out)).infos == 0)
      || Count(PipeC(ClientHandles(y, o))).infos == 0
    ensures Lined(ClientHandles(y, o))
  {
    hide Posted, Sent, Fails, Count;
    var y' := ClientHandles(y, o);
    var rest := y.clientQueue[1..];
    if o.s.phase == SyncDeviceId {
      if Count(PipeC(y')).infos == 0 {
        CoveredNone(PipeC(y'));
      } else {
        assert PipeC(y)[1..] == rest + y.toClient;
        CoveredInsert(rest, Posted(o.out), y.toClient);
      }
    }
  }

  lemma ServerLined(y: Sys, o: Outcome)
    requires y.serverQueue != [] && Lined(y) && Orderly(Look(y), o)
    ensures Lined(ServerHandles(y, o))
  {
    hide Posted, Sent, Fails, Count;
    assert PipeC(ServerHandles(y, o)) == PipeC(y) + Sent(o.out);
    if y.client.phase == SyncDeviceId { CoveredAppend(PipeC(y), Sent(o.out)); }
  }

  /** A client is in the first state after going back, or after staying there without device info of its own. */
  lemma ClientPosts(s: Session, i: Input, o: Outcome)
    requires Summary(s, i, o) && !s.isServer && Sane(s) && Finished(s)
    ensures o.s.phase == SyncDeviceId ==>
      TakesBackEdge(s, i) || (s.phase == SyncDeviceId && !i.m.RecvDeviceId? && Count(Posted(o.out)).infos == 0)
  {
    hide Sent, Posted, Count, TakesBackEdge;
    CountShort(Posted(o.out));
  }

  lemma CoreFinishes(v: View)
    requires Core(v)
    ensures Finished(v.c) && Finished(v.s)
  {
  }

  lemma ClientHandleInv(y: Sys, w: World)
    requires Inv(y) && y.clientQueue != [] && Fair(Handle(Client, w))
    ensures Inv(ClientHandles(y, Process(y.client, y.clientQueue[0], w)))
  {
    hide Process, Sane, Fails, Posted, Sent, Count, Core, Stuck, Lined, TakesBackEdge, Summary;
    var i := Input(y.clientQueue[0], w);
    var o := Process(y.client, i.m, w);
    var y' := ClientHandles(y, o);
    HandlingKeeps(y.client, i);
    if !y'.failed {
      ProcessSummary(y.client, i);
      ClientPipes(y, o);
      PipeHead(y.clientQueue, y.toClient);
      if Stuck(Look(y)) {
        ClientStaysStuck(Look(y), Look(y'), i, o);
      } else {
        HeadIsLined(y);
        ClientCore(Look(y), Look(y'), i, o);
        if !Stuck(Look(y')) {
          ClientPosts(y.client, i, o) by { CoreFinishes(Look(y)); }
          ClientLined(y, o);
        }
      }
    }
  }

  lemma HeadIsLined(y: Sys)
    requires y.clientQueue != [] && Lined(y)
    ensures y.client.phase == SyncDeviceId ==> !y.clientQueue[0].RecvDeviceInfo?
  {
    assert PipeC(y)[0] == y.clientQueue[0];
  }

  lemma ServerHandleInv(y: Sys, w: World)
    requires Inv(y) && y.serverQueue != [] && Fair(Handle(Server, w))
    ensures Inv(ServerHandles(y, Process(y.server, y.serverQueue[0], w)))
  {
    hide Process, Sane, Fails, Posted, Sent, Count, Core, Stuck, Lined, TakesBackEdge, Summary, Orderly;
    var i := Input(y.serverQueue[0], w);
    var o := Process(y.server, i.m, w);
    var y' := ServerHandles(y, o);
    HandlingKeeps(y.server, i);
    if !y'.failed {
      ProcessSummary(y.server, i);
      ServerPipes(y, o);
      PipeHead(y.serverQueue, y.toServer);
      if Stuck(Look(y)) {
        ServerStaysStuck(Look(y), Look(y'), i, o);
      } else {
        ServerCore(Look(y), Look(y'), i, o);
        if !Stuck(Look(y')) { ServerLined(y, o); }
      }
    }
  }

  lemma DeliverInv(y: Sys, side: Side)
    requires Inv(y) && Enabled(y, Deliver(side))
    ensures Inv(Next(y, Deliver(side)))
  {
    hide Core, Roles, Covered;
    var y' := Next(y, Deliver(side));
    assert PipeC(y') == PipeC(y) && PipeS(y') == PipeS(y);
  }

  /** Posting an event that is no protocol message inserts it into the pipe. */
  lemma InsertCounts(a: seq<Msg>, m: Msg, b: seq<Msg>)
    ensures Count(a + [m] + b) == Count(a + b).Plus(One(m))
  {
    hide Count, One;
    CountAdd(a, b);
    CountAdd(a + [m], b);
    CountAdd(a, [m]);
    CountShort([m]);
  }

  lemma OccursCore(v: View, side: Side, m: Msg)
    requires (Core(v) || Stuck(v)) && !m.RecvDeviceId? && !m.RecvDeviceInfo? && !m.RecvCloseAck?
    requires m.SaveSessionKey? ==> v.started
    ensures var v' := if side.Client? then v.(tc := v.tc.Plus(One(m))) else v.(ts := v.ts.Plus(One(m)));
      (Core(v) ==> Core(v')) && (Stuck(v) ==> Stuck(v'))
  {
  }

  lemma OccursLined(y: Sys, m: Msg)
    requires Lined(y) && !m.RecvDeviceId? && !m.RecvDeviceInfo?
    ensures Lined(y.(clientQueue := y.clientQueue + [m]))
  {
    hide Count;
    CountShort([m]);
    if y.client.phase == SyncDeviceId { CoveredInsert(y.clientQueue, [m], y.toClient); }
  }

  lemma OccursInv(y: Sys, side: Side, m: Msg)
    requires Inv(y) && Enabled(y, Occurs(side, m))
    ensures Inv(Next(y, Occurs(side, m)))
  {
    hide Core, Stuck, Lined, Count, One;
    InsertCounts(y.clientQueue, m, y.toClient);
    InsertCounts(y.serverQueue, m, y.toServer);
    if !y.failed {
      OccursCore(Look(y), side, m);
      if Lined(y) {
        if side.Client? { OccursLined(y, m); } else { LinedByClientSide(y, Next(y, Occurs(side, m))); }
      }
    }
  }

  lemma LinedByClientSide(y: Sys, y': Sys)
    requires Lined(y) && PipeC(y') == PipeC(y) && y'.client == y.client
    ensures Lined(y')
  {
  }

  lemma StepInv(y: Sys, t: Step)
    requires Inv(y) && Enabled(y, t) && Fair(t)
    ensures Inv(Next(y, t))
  {
    hide Inv, Process, ClientHandles, ServerHandles;
    match t
    case Deliver(side) => DeliverInv(y, side);
    case Occurs(side, m) => OccursInv(y, side, m);
    case Handle(Client, w) => ClientHandleInv(y, w);
    case Handle(Server, w) => ServerHandleInv(y, w);
  }

  lemma InitInv(y: Sys)
    requires Init(y)
    ensures Inv(y)
  {
    var link, knowsPeer, w :| y == Opening(link, knowsPeer, w);
    OpeningInv(link, knowsPeer, w);
  }

  lemma OpeningInv(link: Link, knowsPeer: bool, w: World)
    ensures Inv(Opening(link, knowsPeer, w))
  {
    hide Sent, Posted, Fails, PostDeviceId, Count, Core, Lined, Sane, Create;
    var c := Create(false, link, knowsPeer);
    var y := Opening(link, knowsPeer, w);
    CreatedIs(false, link, knowsPeer);
    CreatedIs(true, link, false);
    assert Sane(y.client) by { StartSane(EnterSyncDeviceId(c, w)); }
    if w.postOk {
      PostDeviceIdSummary(c, w);
      assert PipeS(y) == y.toServer && PipeC(y) == [];
      OpeningCore(y);
    } else {
      PostDeviceIdFails(c, w);
    }
  }

  lemma CreatedIs(isServer: bool, link: Link, knowsPeer: bool)
    ensures var s := Create(isServer, link, knowsPeer);
      && Sane(s) && Opened(s) && s.isServer == isServer && s.link == link
  {
  }

  /** Nothing recorded yet. */
  predicate Opened(s: Session)
  {
    && s.phase == SyncDeviceId && !s.early && !s.nodeInfo && !s.closeAck && !s.keySaved && !s.isDead
  }

  lemma OpeningCore(y: Sys)
    requires PipeC(y) == [] && |PipeS(y)| == 1 && PipeS(y)[0].RecvDeviceId? && !y.started
    requires Opened(y.client) && Opened(y.server)
    ensures Core(Look(y)) && Lined(y)
  {
    hide Count;
    CountShort(PipeC(y));
    CountShort(PipeS(y));
  }

  /** Every state of a fair run keeps the invariant. */
  lemma {:induction false} FairRunInv(ys: seq<Sys>, ts: seq<Step>, j: nat)
    requires IsFairRun(ys, ts) && j < |ys|
    ensures Inv(ys[j])
  {
    hide Inv, Next, Fair, Enabled, Init;
    if j == 0 {
      InitInv(ys[0]);
    } else {
      FairRunInv(ys, ts, j - 1);
      assert IsStep(ys[j - 1], ts[j - 1], ys[j - 1 + 1]);
      StepInv(ys[j - 1], ts[j - 1]);
    }
  }

  // ------------------------------------------------------ theorems

  lemma RunStep(ys: seq<Sys>, ts: seq<Step>, j: nat)
    requires IsRun(ys, ts) && j < |ts|
    ensures Enabled(ys[j], ts[j]) && ys[j + 1] == Next(ys[j], ts[j])
  {
    hide Next, Enabled, Init;
    assert IsStep(ys[j], ts[j], ys[j + 1]);
  }

  /** A close ack on its way finds a live session that waits for it. */
  lemma AckIsAwaited(v: View, side: Side)
    requires Roles(v) && (Core(v) || Stuck(v)) && !v.c.link.Wifi?
    requires if side.Client? then v.tc.acks > 0 else v.ts.acks > 0
    ensures var s := if side.Client? then v.c else v.s; !s.isDead && s.phase == SyncDeviceInfo && !s.closeAck
  {
  }

  lemma AckIsRecorded(s: Session, w: World)
    requires !s.isDead && s.phase == SyncDeviceInfo
    ensures Process(s, RecvCloseAck, w).s.closeAck
  {
    hide PassAndFinish, TryFinish;
  }

  /**
   On a link other than WiFi, whoever handles a close ack is alive, in the state that records it, and
   had none before.
   */
  lemma CloseAckIsNeverDropped(ys: seq<Sys>, ts: seq<Step>, j: nat)
    requires IsFairRun(ys, ts) && j < |ts| && ts[j].Handle? && !ys[j].failed && !ys[j].client.link.Wifi?
    requires Enabled(ys[j], ts[j]) && Queue(ys[j], ts[j].side)[0].RecvCloseAck?
    ensures var s := Actor(ys[j], ts[j].side);
      !s.isDead && s.phase == SyncDeviceInfo && !s.closeAck && Actor(ys[j + 1], ts[j].side).closeAck
  {
    hide Lined, Count, Init, Core, Stuck, Roles, Process, Fair;
    var y, t := ys[j], ts[j];
    FairRunInv(ys, ts, j);
    RunStep(ys, ts, j);
    PipeHead(Queue(y, t.side), if t.side.Client? then y.toClient else y.toServer);
    AckIsAwaited(Look(y), t.side);
    AckIsRecorded(Actor(y, t.side), t.w);
  }

  lemma NothingLeft(v: View)
    requires Roles(v) && (Core(v) || Stuck(v)) && v.tc == Tally(0, 0, 0, 0) && v.ts == Tally(0, 0, 0, 0)
    requires v.c.keySaved && v.s.keySaved
    ensures v.c.nodeInfo && v.c.closeAck && v.s.nodeInfo && v.s.closeAck
    ensures (!v.c.isDead ==> v.c.passed) && (!v.s.isDead ==> v.s.passed)
  {
  }

  /**
   Whenever nothing is left to deliver or to handle, neither session failed and both saved a session
   key, both have called AuthManagerSetAuthPassed. Device info that came early is covered.
   */
  lemma QuietMeansPassed(ys: seq<Sys>, ts: seq<Step>, j: nat)
    requires IsFairRun(ys, ts) && j < |ys| && Quiescent(ys[j]) && !ys[j].failed
    requires ys[j].client.keySaved && ys[j].server.keySaved
    ensures ys[j].client.passed && ys[j].server.passed
  {
    hide Lined, Count, IsFairRun, Core, Stuck, Roles;
    FairRunInv(ys, ts, j);
    CountShort(PipeC(ys[j]));
    CountShort(PipeS(ys[j]));
    NothingLeft(Look(ys[j]));
  }

  /** As long as both sessions live, neither has failed. */
  lemma BothLive(ys: seq<Sys>, ts: seq<Step>, j: nat)
    requires IsFairRun(ys, ts) && j < |ys| && !ys[j].client.isDead && !ys[j].server.isDead
    ensures !ys[j].failed
  {
    FairRunInv(ys, ts, j);
  }
}

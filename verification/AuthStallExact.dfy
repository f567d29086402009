/**
 The other half: where session keys fit, a client that goes back on a device id with a fast-auth tag
 always ends up waiting, because the server finds its key before it finds the client's second device id.
 */
module AuthStallExact {
  import opened Session
  import opened SessionRuns
  import opened AuthProtocol
  import opened AuthSummaries
  import opened AuthInvariant
  import opened AuthSteps
  import opened AuthTheorems
  import opened AuthStall

  /** Session keys fit their buffer. */
  predicate Fits(t: Step)
  {
    t.Handle? ==> t.w.keyFits
  }

  /** A server that went on fast has its key, or will find it in its queue. */
  predicate KeyDue(v: View)
  {
    v.s.fast ==> v.s.keySaved || v.ts.keys > 0
  }

  lemma ServerKeyDue(v: View, v': View, i: Input, o: Outcome)
    requires Roles(v) && Core(v) && KeyDue(v) && ServerMoves(v, v', i.m, o) && Holds(v.ts, i.m) && Summary(v.s, i, o)
    requires i.w.keyFits
    ensures KeyDue(v')
  {
    hide Count, Sent, Posted, TakesBackEdge, One;
    CountFast();
    CountNone();
    OneKeys(i.m);
    CountShort(Posted(o.out));
  }

  lemma OneKeys(m: Msg)
    ensures One(m).keys == Bit(m.SaveSessionKey?)
  {
  }

  lemma ClientKeyDue(v: View, v': View, i: Input, o: Outcome)
    requires KeyDue(v) && ClientMoves(v, v', i.m, o)
    ensures KeyDue(v')
  {
    hide Count, Sent, Posted, One;
  }

  /** Reading from the head, a session key comes before any device id. */
  predicate KeyFirst(q: seq<Msg>)
  {
    q != [] && (q[0].SaveSessionKey? || (!q[0].RecvDeviceId? && KeyFirst(q[1..])))
  }

  lemma {:induction false} KeyFirstInsert(a: seq<Msg>, m: Msg, b: seq<Msg>)
    requires KeyFirst(a + b) && !m.RecvDeviceId?
    ensures KeyFirst(a + [m] + b)
  {
    if a == [] {
      assert a + b == b && a + [m] + b == [m] + b && ([m] + b)[1..] == b;
    } else if !a[0].SaveSessionKey? {
      assert (a + b)[1..] == a[1..] + b;
      KeyFirstInsert(a[1..], m, b);
      assert (a + [m] + b)[1..] == a[1..] + [m] + b;
    }
  }

  /** A queue that holds a key and no device id stays so ordered whatever is appended. */
  lemma {:induction false} KeyFirstAppend(q: seq<Msg>, x: seq<Msg>)
    requires Count(q).keys > 0 && Count(q).ids == 0
    ensures KeyFirst(q + x)
  {
    hide Count, One;
    if q == [] {
      CountNone();
    } else {
      CountHead(q);
      OneKeys(q[0]);
      if q[0].RecvDeviceId? { OneId(q[0]); }
      if !q[0].SaveSessionKey? {
        KeyFirstAppend(q[1..], x);
        assert (q + x)[1..] == q[1..] + x;
      }
    }
  }

  /** The client went back, its device id is on its way, and a key is ahead of it. */
  predicate Doomed(y: Sys)
  {
    && Roles(Look(y)) && Core(Look(y)) && Lined(y)
    && y.client.phase == SyncDeviceId && Count(PipeS(y)).ids == 1 && KeyFirst(PipeS(y))
  }

  // ------------------------------------------------------ the return

  lemma StartsDoom(v: View, v': View, i: Input, o: Outcome)
    requires Roles(v) && Core(v) && KeyDue(v) && v.s.fast && ClientMoves(v, v', i.m, o) && Holds(v.tc, i.m)
    requires Summary(v.c, i, o) && TakesBackEdge(v.c, i) && v.s.phase != SyncDeviceInfo
    ensures v'.c.phase == SyncDeviceId && v'.ts.ids == 1 && v.ts.ids == 0 && v.ts.keys > 0
  {
    hide Count, Sent, Posted, SetExchange;
    CountShort(Sent(o.out));
  }

  lemma FastReturnDooms(y: Sys, w: World)
    requires Steady(y) && KeyDue(Look(y)) && y.clientQueue != [] && Fair(Handle(Client, w))
    requires FastReturn(y, Handle(Client, w))
    requires !Fails(Process(y.client, y.clientQueue[0], w).out)
    ensures var y' := ClientHandles(y, Process(y.client, y.clientQueue[0], w));
      Roles(Look(y')) && (Doomed(y') || Stuck(Look(y')))
  {
    hide Process, Sane, Fails, Posted, Sent, Count, Core, Stuck, Lined, Summary, Tame, Tagged, KeyFirst,
      KeyDue, TakesBackEdge;
    var i := Input(y.clientQueue[0], w);
    var o := Process(y.client, i.m, w);
    var y' := ClientHandles(y, o);
    HandlingKeeps(y.client, i);
    ProcessSummary(y.client, i);
    ClientPipes(y, o);
    PipeHead(y.clientQueue, y.toClient);
    HeadIsLined(y);
    SteadyHead(y);
    assert i.m.RecvDeviceId? by { ReturnsOnId(y.client, i); }
    ClientCore(Look(y), Look(y'), i, o);
    if !Stuck(Look(y')) {
      ClientPosts(y.client, i, o) by { CoreFinishes(Look(y)); }
      ClientLined(y, o);
      NotGone(Look(y), Look(y'), i, o);
      StartsDoom(Look(y), Look(y'), i, o);
      assert PipeS(y') == PipeS(y) + Sent(o.out);
      KeyFirstAppend(PipeS(y), Sent(o.out));
    }
  }

  lemma ReturnsOnId(s: Session, i: Input)
    requires TakesBackEdge(s, i)
    ensures i.m.RecvDeviceId? && !s.isDead
  {
  }

  /** A client that goes back gets stuck at once if the server is already in the last state. */
  lemma NotGone(v: View, v': View, i: Input, o: Outcome)
    requires Roles(v) && Roles(v') && Core(v) && ClientMoves(v, v', i.m, o) && Holds(v.tc, i.m) && Summary(v.c, i, o)
    requires TakesBackEdge(v.c, i) && !Stuck(v')
    ensures v.s.phase != SyncDeviceInfo
  {
    hide Core, Stuck, Roles, ClientMoves, Holds, ClientGoesBack, SetExchange;
    ClientReturns(v, v', i.m, o);
  }

  // ------------------------------------------------------ from the return to the stall

  lemma DoomedClient(v: View, v': View, i: Input, o: Outcome)
    requires Roles(v) && Core(v) && v.c.phase == SyncDeviceId && v.ts.ids == 1 && Holds(v.tc, i.m)
    requires ClientMoves(v, v', i.m, o) && Summary(v.c, i, o) && !i.m.RecvDeviceInfo?
    ensures v'.c.phase == SyncDeviceId && v'.ts == v.ts && Sent(o.out) == [] && !Stuck(v')
  {
    hide Count, Sent, Posted, SetExchange;
    CountShort(Sent(o.out));
  }

  /** Neither device info nor a close ack is on its way to a server whose client waits in the first state. */
  lemma DoomedServerIgnores(v: View, i: Input, o: Outcome)
    requires Roles(v) && Core(v) && v.c.phase == SyncDeviceId && v.ts.ids == 1 && Holds(v.ts, i.m) && Summary(v.s, i, o)
    requires !i.m.RecvDeviceId? && !i.m.SaveSessionKey?
    ensures Silent(v.s, o)
  {
    hide Sent, Posted, TakesBackEdge;
  }

  lemma DoomedServerSaves(v: View, v': View, i: Input, o: Outcome)
    requires Roles(v) && Roles(v') && Core(v) && v.c.phase == SyncDeviceId && v.ts.ids == 1 && Holds(v.ts, i.m)
    requires ServerMoves(v, v', i.m, o) && Summary(v.s, i, o) && i.m.SaveSessionKey? && i.w.keyFits
    ensures Stuck(v')
  {
    hide Count, Sent, Posted, TakesBackEdge, KeyDone;
    assert v.s.phase == DeviceAuth && !v.s.isDead;
    ServerSavesKey(v, v', i.m, o);
  }

  lemma ClientStaysDoomed(y: Sys, w: World)
    requires Doomed(y) && y.clientQueue != [] && Fair(Handle(Client, w))
    requires !Fails(Process(y.client, y.clientQueue[0], w).out)
    ensures Doomed(ClientHandles(y, Process(y.client, y.clientQueue[0], w)))
  {
    hide Process, Sane, Fails, Posted, Sent, Count, Core, Stuck, Lined, Summary, KeyFirst, TakesBackEdge;
    var i := Input(y.clientQueue[0], w);
    var o := Process(y.client, i.m, w);
    var y' := ClientHandles(y, o);
    HandlingKeeps(y.client, i);
    ProcessSummary(y.client, i);
    ClientPipes(y, o);
    PipeHead(y.clientQueue, y.toClient);
    HeadIsLined(y);
    DoomedClient(Look(y), Look(y'), i, o);
    ClientCore(Look(y), Look(y'), i, o);
    ClientPosts(y.client, i, o) by { CoreFinishes(Look(y)); }
    ClientLined(y, o);
    assert PipeS(y') == PipeS(y) + Sent(o.out) == PipeS(y);
  }

  lemma ServerStaysDoomed(y: Sys, w: World)
    requires Doomed(y) && y.serverQueue != [] && Fair(Handle(Server, w)) && w.keyFits
    requires !Fails(Process(y.server, y.serverQueue[0], w).out)
    ensures var y' := ServerHandles(y, Process(y.server, y.serverQueue[0], w));
      Roles(Look(y')) && (Doomed(y') || Stuck(Look(y')))
  {
    hide Process, Sane, Fails, Posted, Sent, Count, Core, Stuck, Lined, Summary, TakesBackEdge, Orderly, Silent;
    var i := Input(y.serverQueue[0], w);
    var o := Process(y.server, i.m, w);
    var y' := ServerHandles(y, o);
    HandlingKeeps(y.server, i);
    ProcessSummary(y.server, i);
    ServerPipes(y, o);
    PipeHead(y.serverQueue, y.toServer);
    if i.m.SaveSessionKey? {
      DoomedServerSaves(Look(y), Look(y'), i, o);
    } else {
      DoomedServerIgnores(Look(y), i, o);
      SilentPosts(y.server, o);
      assert PipeS(y)[1..] == PipeS(y') by { assert PipeS(y') == y.serverQueue[1..] + [] + y.toServer; }
      ServerCore(Look(y), Look(y'), i, o);
      if !Stuck(Look(y')) { ServerLined(y, o); }
      IdsKept(Look(y), Look(y'), i.m, o);
    }
  }

  lemma SilentPosts(s: Session, o: Outcome)
    requires Silent(s, o)
    ensures Posted(o.out) == [] && Sent(o.out) == []
  {
  }

  lemma IdsKept(v: View, v': View, m: Msg, o: Outcome)
    requires ServerMoves(v, v', m, o) && Posted(o.out) == [] && !m.RecvDeviceId?
    ensures v'.ts.ids == v.ts.ids
  {
    hide Count, Sent, Posted;
    CountNone();
  }

  lemma OccursStaysDoomed(y: Sys, side: Side, m: Msg)
    requires Doomed(y) && Enabled(y, Occurs(side, m))
    ensures Doomed(Next(y, Occurs(side, m)))
  {
    hide Core, Stuck, Lined, Count, KeyFirst;
    InsertCounts(y.clientQueue, m, y.toClient);
    InsertCounts(y.serverQueue, m, y.toServer);
    OccursCore(Look(y), side, m);
    if side.Client? {
      OccursLined(y, m);
    } else {
      LinedByClientSide(y, Next(y, Occurs(side, m)));
      KeyFirstInsert(y.serverQueue, m, y.toServer);
    }
  }

  lemma DeliverStaysDoomed(y: Sys, side: Side)
    requires Doomed(y) && Enabled(y, Deliver(side))
    ensures Doomed(Next(y, Deliver(side)))
  {
    hide Core, Roles, Covered, KeyFirst, Count;
    var y' := Next(y, Deliver(side));
    assert PipeC(y') == PipeC(y) && PipeS(y') == PipeS(y);
  }

  lemma DoomedStep(y: Sys, t: Step)
    requires Doomed(y) && Enabled(y, t) && Fair(t) && Fits(t) && !Next(y, t).failed
    ensures var y' := Next(y, t); Roles(Look(y')) && (Doomed(y') || Stuck(Look(y')))
  {
    hide Process, Fails, Sent, Posted, Core, Stuck, Lined, KeyFirst, Count;
    match t
    case Deliver(side) => DeliverStaysDoomed(y, side);
    case Occurs(side, m) => OccursStaysDoomed(y, side, m);
    case Handle(Client, w) => ClientStaysDoomed(y, w);
    case Handle(Server, w) => ServerStaysDoomed(y, w);
  }

  // ------------------------------------------------------ runs

  ghost predicate KeysFit(ts: seq<Step>)
  {
    forall j: nat :: j < |ts| ==> Fits(ts[j])
  }

  lemma KeyDueStep(y: Sys, t: Step)
    requires Steady(y) && KeyDue(Look(y)) && Enabled(y, t) && Fair(t) && Fits(t) && !Next(y, t).failed
    ensures KeyDue(Look(Next(y, t)))
  {
    hide Process, Fails, Sent, Posted, Core, Lined, Tame, Tagged, Count, KeyDue, Summary, Sane;
    var y' := Next(y, t);
    match t
    case Deliver(side) => assert PipeC(y') == PipeC(y) && PipeS(y') == PipeS(y);
    case Occurs(side, m) =>
      InsertCounts(y.clientQueue, m, y.toClient);
      InsertCounts(y.serverQueue, m, y.toServer);
      OccursKeyDue(Look(y), side, m);
    case Handle(Client, w) =>
      var i := Input(y.clientQueue[0], w);
      ClientPipes(y, Process(y.client, i.m, w));
      ClientKeyDue(Look(y), Look(y'), i, Process(y.client, i.m, w));
    case Handle(Server, w) =>
      var i := Input(y.serverQueue[0], w);
      ProcessSummary(y.server, i);
      ServerPipes(y, Process(y.server, i.m, w));
      PipeHead(y.serverQueue, y.toServer);
      ServerKeyDue(Look(y), Look(y'), i, Process(y.server, i.m, w));
  }

  lemma OccursKeyDue(v: View, side: Side, m: Msg)
    requires KeyDue(v)
    ensures KeyDue(if side.Client? then v.(tc := v.tc.Plus(One(m))) else v.(ts := v.ts.Plus(One(m))))
  {
  }

  lemma OpeningKeyDue(y: Sys)
    requires Init(y)
    ensures KeyDue(Look(y))
  {
    hide PostDeviceId, Fails, Sent, Count;
  }

  lemma {:induction false} RunKeyDue(ys: seq<Sys>, ts: seq<Step>, j: nat)
    requires IsFairRun(ys, ts) && KeysFit(ts) && j < |ys| && NoFastReturn(ys, ts, j) && !ys[j].failed
    ensures KeyDue(Look(ys[j]))
  {
    hide Steady, KeyDue, Next, Enabled, Init, Fair, Fits, ReturnsAt, Look;
    if j == 0 {
      OpeningKeyDue(ys[0]);
    } else {
      var y, t := ys[j - 1], ts[j - 1];
      RunStep(ys, ts, j - 1);
      if y.failed { FailedStays(y, t); }
      RunStaysSteady(ys, ts, j - 1);
      RunKeyDue(ys, ts, j - 1);
      KeyDueStep(y, t);
    }
  }

  /** The first such return. */
  lemma {:induction false} FirstReturn(ys: seq<Sys>, ts: seq<Step>, k: nat) returns (first: nat)
    requires ReturnsAt(ys, ts, k)
    ensures first <= k && ReturnsAt(ys, ts, first) && NoFastReturn(ys, ts, first)
  {
    hide ReturnsAt;
    if j: nat :| j < k && ReturnsAt(ys, ts, j) {
      first := FirstReturn(ys, ts, j);
    } else {
      first := k;
    }
  }

  lemma {:induction false} NotFailedBefore(ys: seq<Sys>, ts: seq<Step>, j: nat, k: nat)
    requires IsRun(ys, ts) && j <= k < |ys| && !ys[k].failed
    ensures !ys[j].failed
  {
    hide Next, Enabled, Init;
    if j < k {
      RunStep(ys, ts, k - 1);
      if ys[k - 1].failed { FailedStays(ys[k - 1], ts[k - 1]); }
      NotFailedBefore(ys, ts, j, k - 1);
    }
  }

  lemma ReturnStep(ys: seq<Sys>, ts: seq<Step>, k: nat)
    requires IsFairRun(ys, ts) && KeysFit(ts) && ReturnsAt(ys, ts, k) && NoFastReturn(ys, ts, k)
    requires !ys[k].failed && !ys[k + 1].failed
    ensures Doomed(ys[k + 1]) || Stuck(Look(ys[k + 1]))
  {
    hide Steady, KeyDue, Init, Process, Stuck, Doomed, Look, Fails, Sent, Posted, TakesBackEdge;
    RunStep(ys, ts, k);
    RunStaysSteady(ys, ts, k);
    RunKeyDue(ys, ts, k);
    FastReturnDooms(ys[k], ts[k].w);
  }

  lemma {:induction false} DoomStays(ys: seq<Sys>, ts: seq<Step>, j: nat, k: nat)
    requires IsFairRun(ys, ts) && KeysFit(ts) && j <= k < |ys| && !ys[k].failed
    requires Doomed(ys[j]) || Stuck(Look(ys[j]))
    ensures Doomed(ys[k]) || Stuck(Look(ys[k]))
  {
    hide Doomed, Stuck, Next, Enabled, Init, Fair, Fits, Look;
    if j < k {
      NotFailedBefore(ys, ts, k - 1, k);
      DoomStays(ys, ts, j, k - 1);
      RunStep(ys, ts, k - 1);
      if Stuck(Look(ys[k - 1])) { StuckStays(ys, ts, k - 1, k); } else { DoomedStep(ys[k - 1], ts[k - 1]); }
    }
  }

  lemma DoomedIsBusy(y: Sys)
    requires Doomed(y)
    ensures !Quiescent(y)
  {
    hide Core, Roles, Lined, Count;
    assert PipeS(y) != [];
  }

  /**
   In a fair run whose keys fit, a state at rest without a failure is the stall if and only if some client
   went back, earlier in the run, on a device id that carries a fast-auth tag.
   */
  lemma StuckExactlyAfterFastReturn(ys: seq<Sys>, ts: seq<Step>, j: nat)
    requires IsFairRun(ys, ts) && KeysFit(ts) && j < |ys| && Quiescent(ys[j]) && !ys[j].failed
    ensures Stuck(Look(ys[j])) <==> exists k: nat :: k < j && ReturnsAt(ys, ts, k)
  {
    hide Doomed, Stuck, Init, Look, ReturnsAt, Quiescent;
    if k: nat :| k < j && ReturnsAt(ys, ts, k) {
      var first := FirstReturn(ys, ts, k);
      NotFailedBefore(ys, ts, first, j);
      NotFailedBefore(ys, ts, first + 1, j);
      ReturnStep(ys, ts, first);
      DoomStays(ys, ts, first + 1, j);
      if Doomed(ys[j]) { DoomedIsBusy(ys[j]); }
    } else {
      StuckOnlyByFastReturn(ys, ts, j);
    }
  }
}

/**
 A server that goes on fast while its client goes back to the first state: each then waits for the
 other, and no message ends it. A run shows it, and no run shows it in which no client goes back on a
 device id that carries a fast-auth tag.
 */
module AuthStall {
  import opened Session
  import opened SessionRuns
  import opened AuthProtocol
  import opened AuthSummaries
  import opened AuthInvariant
  import opened AuthSteps
  import opened AuthTheorems

  lemma StuckStep(y: Sys, t: Step)
    requires Roles(Look(y)) && Stuck(Look(y)) && Enabled(y, t) && Fair(t) && !Next(y, t).failed
    ensures Stuck(Look(Next(y, t)))
  {
    hide Process, Sane, Fails, Posted, Sent, Count, Stuck, TakesBackEdge, Summary, One;
    var y' := Next(y, t);
    match t
    case Deliver(side) => assert PipeC(y') == PipeC(y) && PipeS(y') == PipeS(y);
    case Occurs(side, m) =>
      InsertCounts(y.clientQueue, m, y.toClient);
      InsertCounts(y.serverQueue, m, y.toServer);
      OccursStuck(Look(y), side, m);
    case Handle(Client, w) =>
      var i := Input(y.clientQueue[0], w);
      ProcessSummary(y.client, i);
      ClientPipes(y, Process(y.client, i.m, w));
      PipeHead(y.clientQueue, y.toClient);
      ClientStaysStuck(Look(y), Look(y'), i, Process(y.client, i.m, w));
    case Handle(Server, w) =>
      var i := Input(y.serverQueue[0], w);
      ProcessSummary(y.server, i);
      ServerPipes(y, Process(y.server, i.m, w));
      PipeHead(y.serverQueue, y.toServer);
      ServerStaysStuck(Look(y), Look(y'), i, Process(y.server, i.m, w));
  }

  lemma OccursStuck(v: View, side: Side, m: Msg)
    requires Stuck(v) && !m.RecvDeviceId? && !m.RecvDeviceInfo? && !m.RecvCloseAck?
    ensures Stuck(if side.Client? then v.(tc := v.tc.Plus(One(m))) else v.(ts := v.ts.Plus(One(m))))
  {
  }

  /** Once there, as long as neither session fails, neither ever passes. */
  lemma {:induction false} StuckStays(ys: seq<Sys>, ts: seq<Step>, j: nat, k: nat)
    requires IsFairRun(ys, ts) && j <= k < |ys| && Stuck(Look(ys[j])) && !ys[k].failed
    ensures Stuck(Look(ys[k])) && !ys[k].client.passed && !ys[k].server.passed
  {
    hide Stuck, Next, Enabled, Init, Fair;
    FairRunInv(ys, ts, k);
    if j < k {
      RunStep(ys, ts, k - 1);
      if ys[k - 1].failed { FailedStays(ys[k - 1], ts[k - 1]); }
      StuckStays(ys, ts, j, k - 1);
      FairRunInv(ys, ts, k - 1);
      StuckStep(ys[k - 1], ts[k - 1]);
    }
    StuckIsNotPassed(Look(ys[k]));
  }

  lemma FailedStays(y: Sys, t: Step)
    requires Enabled(y, t) && y.failed
    ensures Next(y, t).failed
  {
  }

  lemma StuckIsNotPassed(v: View)
    requires Roles(v) && Stuck(v)
    ensures !v.c.passed && !v.s.passed
  {
  }

  // ------------------------------------------------------ it can happen

  /**
   Everything goes well, except that only one of the two knows its peer: where the network id is found the
   device key is found too, to accept a tag and to pack one; where it is not, neither is.
   */
  function Answers(knows: bool): World
  {
    World(true, if knows then Found else NotFound, knows, knows, true, true, true, true, true, true, true, true)
  }

  /** The client's and the server's session after each step of the run below. */
  function Client0(): Session
  {
    Session(false, Ble, SyncDeviceId, NetworkId, false, false, false, false, false, false, false, false)
  }

  function Server1(): Session
  {
    Session(true, Ble, DeviceAuth, NetworkId, true, false, false, false, false, false, false, false)
  }

  function State0(): Sys
  {
    Sys(Client0(), Create(true, Ble, false), [], [], [], [RecvDeviceId(Given(NetworkId), true)], false, false)
  }

  function State1(): Sys
  {
    State0().(serverQueue := [RecvDeviceId(Given(NetworkId), true)], toServer := [])
  }

  function State2(): Sys
  {
    State1().(server := Server1(), serverQueue := [SaveSessionKey, AuthFinish],
              toClient := [RecvDeviceId(Given(NetworkId), true)])
  }

  function State3(): Sys
  {
    State2().(clientQueue := [RecvDeviceId(Given(NetworkId), true)], toClient := [])
  }

  function State4(): Sys
  {
    State3().(client := Client0().(idType := Udid), clientQueue := [], toServer := [RecvDeviceId(Given(Udid), false)])
  }

  function State5(): Sys
  {
    State4().(server := Server1().(keySaved := true, phase := SyncDeviceInfo), serverQueue := [AuthFinish],
              toClient := [RecvDeviceInfo])
  }

  lemma OpensAt0()
    ensures Init(State0())
  {
    var w := Answers(true);
    var c := Create(false, Ble, true);
    PostDeviceIdSummary(c, w);
    assert State0() == Opening(Ble, true, w);
  }

  lemma ServerAnswersFast()
    ensures Next(State1(), Handle(Server, Answers(true))) == State2()
  {
    hide Sent, Posted, Fails;
    var o := Process(State1().server, State1().serverQueue[0], Answers(true));
    var out := [SendDeviceId(NetworkId, true)] + [PostSelf(SaveSessionKey), PostSelf(AuthFinish)];
    assert o == Outcome(Server1(), out);
    FastPosts();
    SentOne(SendDeviceId(NetworkId, true));
    SentAdd([SendDeviceId(NetworkId, true)], [PostSelf(SaveSessionKey), PostSelf(AuthFinish)]);
    assert !Fails(out) by { NoFailure(out); }
  }

  lemma NoFailure(out: seq<Effect>)
    requires forall k: nat :: k < |out| ==> !out[k].Completed?
    ensures !Fails(out)
  {
  }

  lemma ClientReturnsSlow()
    ensures Next(State3(), Handle(Client, Answers(false))) == State4()
  {
    hide Sent, Posted, Fails;
    var o := Process(State3().client, State3().clientQueue[0], Answers(false));
    assert o == Outcome(Client0().(idType := Udid), [SendDeviceId(Udid, false)]);
    SentOne(SendDeviceId(Udid, false));
    assert !Fails(o.out) by { NoFailure(o.out); }
  }

  lemma ServerSavesFast()
    ensures Next(State4(), Handle(Server, Answers(true))) == State5()
  {
    hide Sent, Posted, Fails;
    var s := State4().server;
    var o := Process(s, State4().serverQueue[0], Answers(true));
    assert o.s == State5().server && o.out == KeySavedEffects(s, Answers(true));
    KeyEffects(s, Answers(true));
    assert !Fails(o.out) by { NoFailure(o.out); }
  }

  lemma DeliveriesOf()
    ensures IsStep(State0(), Deliver(Server), State1()) && IsStep(State2(), Deliver(Client), State3())
  {
  }

  lemma HandlingsOf()
    ensures IsStep(State1(), Handle(Server, Answers(true)), State2())
    ensures IsStep(State3(), Handle(Client, Answers(false)), State4())
    ensures IsStep(State4(), Handle(Server, Answers(true)), State5())
  {
    hide Next;
    ServerAnswersFast();
    ClientReturnsSlow();
    ServerSavesFast();
  }

  lemma FiveSteps(y: seq<Sys>, t: seq<Step>)
    requires |y| == 6 && |t| == 5 && IsStep(y[0], t[0], y[1]) && IsStep(y[1], t[1], y[2]) && IsStep(y[2], t[2], y[3])
    requires IsStep(y[3], t[3], y[4]) && IsStep(y[4], t[4], y[5])
    ensures forall j: nat :: j < |t| ==> IsStep(y[j], t[j], y[j + 1])
  {
    hide IsStep;
    forall j: nat | j < |t| ensures IsStep(y[j], t[j], y[j + 1]) {
      assert j == 0 || j == 1 || j == 2 || j == 3 || j == 4;
    }
  }

  /** The client waits, the server went on, its device info and the second device id are on their way. */
  lemma StuckFrom(y: Sys)
    requires y.client.phase == SyncDeviceId && y.server.phase == SyncDeviceInfo && !y.server.nodeInfo
    requires !y.client.isDead && !y.server.isDead
    requires |PipeC(y)| == 1 && PipeC(y)[0].RecvDeviceInfo?
    requires |PipeS(y)| == 2 && PipeS(y)[0].AuthFinish? && PipeS(y)[1].RecvDeviceId?
    ensures Stuck(Look(y))
  {
    hide Count, PipeC, PipeS, One;
    CountShort(PipeC(y));
    CountShort(PipeS(y));
    OneId(PipeS(y)[1]);
    OneOther(PipeC(y)[0]);
    OneOther(PipeS(y)[0]);
  }

  lemma OneOther(m: Msg)
    ensures m.RecvDeviceInfo? ==> One(m) == Tally(0, 1, 0, 0)
    ensures m.AuthFinish? ==> One(m) == Tally(0, 0, 0, 0)
  {
  }

  lemma StuckAt5()
    ensures !State5().failed && Stuck(Look(State5()))
  {
    hide Stuck, Look;
    StuckFrom(State5());
  }

  /** Five steps without any failure, after which both sessions wait for ever. */
  lemma FastServerCanStrandClient() returns (ys: seq<Sys>, ts: seq<Step>)
    ensures IsFairRun(ys, ts) && !ys[|ts|].failed && Stuck(Look(ys[|ts|]))
  {
    hide IsStep, State0, State1, State2, State3, State4, State5, Look, Stuck, Init;
    ys := [State0(), State1(), State2(), State3(), State4(), State5()];
    ts := [Deliver(Server), Handle(Server, Answers(true)), Deliver(Client), Handle(Client, Answers(false)),
           Handle(Server, Answers(true))];
    OpensAt0();
    DeliveriesOf();
    HandlingsOf();
    FiveSteps(ys, ts);
    StuckAt5();
  }

  // ------------------------------------------------------ when it cannot happen

  /** The client goes back on a device id that says the server went on fast. */
  predicate FastReturn(y: Sys, t: Step)
    requires Enabled(y, t)
  {
    t.Handle? && t.side.Client? && TakesBackEdge(y.client, Input(y.clientQueue[0], t.w)) && y.clientQueue[0].fastTag
  }

  /** Every device id on the way tells whether the server went on fast. */
  predicate Tagged(q: seq<Msg>, fast: bool)
  {
    forall k: nat :: k < |q| && q[k].RecvDeviceId? ==> q[k].fastTag == fast
  }

  /** The server has a key, or one coming, only if it went on fast or Hichain was started. */
  predicate Tame(v: View)
  {
    && (v.ts.keys > 0 || v.s.keySaved ==> v.s.fast || v.started)
    && (v.ts.ids > 0 ==> !v.s.fast && v.ts.keys == 0)
  }

  lemma ClientStaysTame(v: View, v': View, i: Input, o: Outcome)
    requires Roles(v) && Core(v) && Tame(v) && ClientMoves(v, v', i.m, o) && Holds(v.tc, i.m) && Summary(v.c, i, o)
    requires i.m.RecvDeviceId? ==> i.m.fastTag == v.s.fast
    requires TakesBackEdge(v.c, i) ==> !i.m.fastTag
    ensures Tame(v') && (TakesBackEdge(v.c, i) ==> v.s.phase != SyncDeviceInfo)
  {
    hide Count, Sent, Posted, SetExchange;
    CountShort(Sent(o.out));
  }

  lemma ServerAnswerTame(v: View, v': View, m: Msg, o: Outcome)
    requires Roles(v) && Core(v) && Tame(v) && ServerMoves(v, v', m, o) && Holds(v.ts, m)
    requires m.RecvDeviceId? && ServerAnswers(v.s, o)
    ensures Tame(v')
  {
    hide Count, Sent, Posted, One;
    CountFast();
    CountNone();
    OneId(m);
  }

  /** Every other message leaves the flag alone and posts no key. */
  lemma ServerOtherTame(v: View, v': View, m: Msg, o: Outcome)
    requires Roles(v) && Core(v) && Tame(v) && ServerMoves(v, v', m, o) && Holds(v.ts, m)
    requires o.s.fast == v.s.fast && (o.s.keySaved ==> v.s.keySaved || m.SaveSessionKey?)
    requires Posted(o.out) == [] || Posted(o.out) == [RecvDeviceInfo]
    ensures Tame(v')
  {
    hide Count, Sent, Posted;
    CountShort(Posted(o.out));
  }

  lemma ServerStaysTame(v: View, v': View, i: Input, o: Outcome)
    requires Roles(v) && Core(v) && Tame(v) && ServerMoves(v, v', i.m, o) && Holds(v.ts, i.m) && Summary(v.s, i, o)
    ensures Tame(v')
  {
    hide Core, Count, Sent, Posted, TakesBackEdge, ServerMoves, Tame, Holds, Sane;
    if !v.s.isDead && i.m.RecvDeviceId? && v.s.phase != SyncDeviceInfo {
      ServerAnswerTame(v, v', i.m, o);
    } else {
      ServerOtherTame(v, v', i.m, o);
    }
  }

  lemma ClientTagged(y: Sys, o: Outcome)
    requires y.clientQueue != [] && Tagged(PipeC(y), y.server.fast)
    requires forall k: nat :: k < |Posted(o.out)| ==> !Posted(o.out)[k].RecvDeviceId?
    ensures Tagged(PipeC(ClientHandles(y, o)), y.server.fast)
  {
    hide Posted, Sent, Fails;
    var q, p, n := PipeC(ClientHandles(y, o)), Posted(o.out), |y.clientQueue| - 1;
    assert forall k :: n <= k < n + |p| ==> q[k] == p[k - n];
    forall k: nat | k < |q| && q[k].RecvDeviceId? ensures q[k].fastTag == y.server.fast {
      var j := if k < n then k + 1 else k + 1 - |p|;
      assert q[k] == PipeC(y)[j];
    }
  }

  lemma ServerTagged(y: Sys, o: Outcome)
    requires y.serverQueue != [] && Tagged(PipeC(y), y.server.fast) && Tagged(Sent(o.out), o.s.fast)
    requires o.s.fast != y.server.fast ==> Count(PipeC(y)).ids == 0
    ensures Tagged(PipeC(ServerHandles(y, o)), o.s.fast)
  {
    hide Posted, Sent, Fails, Count;
    var q, p := PipeC(ServerHandles(y, o)), PipeC(y);
    assert q == p + Sent(o.out);
    forall k: nat | k < |q| && q[k].RecvDeviceId? ensures q[k].fastTag == o.s.fast {
      if k < |p| {
        assert q[k] == p[k];
        CountsDeviceId(p, k);
      } else {
        assert q[k] == Sent(o.out)[k - |p|];
      }
    }
  }

  lemma {:induction false} CountsDeviceId(q: seq<Msg>, k: nat)
    requires k < |q| && q[k].RecvDeviceId?
    ensures Count(q).ids > 0
  {
    hide Count, One;
    CountHead(q);
    if k > 0 { CountsDeviceId(q[1..], k - 1); } else { OneId(q[0]); }
  }

  /** What either side sends and posts, as far as tags are concerned. */
  lemma TagsOf(s: Session, i: Input, o: Outcome)
    requires Summary(s, i, o)
    ensures s.isServer ==> Tagged(Sent(o.out), o.s.fast)
    ensures forall k: nat :: k < |Posted(o.out)| ==> !Posted(o.out)[k].RecvDeviceId?
    ensures s.isServer && o.s.fast != s.fast ==> i.m.RecvDeviceId? && s.phase != SyncDeviceInfo
  {
    hide Sent, Posted, TakesBackEdge;
  }

  predicate Steady(y: Sys)
  {
    Roles(Look(y)) && Core(Look(y)) && Lined(y) && Tame(Look(y)) && Tagged(PipeC(y), y.server.fast)
  }

  lemma SteadyHead(y: Sys)
    requires Steady(y) && y.clientQueue != []
    ensures y.clientQueue[0].RecvDeviceId? ==> y.clientQueue[0].fastTag == y.server.fast
  {
    assert PipeC(y)[0] == y.clientQueue[0];
  }

  lemma ClientStaysSteady(y: Sys, w: World)
    requires Steady(y) && y.clientQueue != [] && Fair(Handle(Client, w)) && !FastReturn(y, Handle(Client, w))
    requires !Fails(Process(y.client, y.clientQueue[0], w).out)
    ensures Steady(ClientHandles(y, Process(y.client, y.clientQueue[0], w)))
  {
    hide Process, Sane, Fails, Posted, Sent, Count, Core, Stuck, Lined, TakesBackEdge, Summary, Tame, Tagged;
    var i := Input(y.clientQueue[0], w);
    var o := Process(y.client, i.m, w);
    var y' := ClientHandles(y, o);
    HandlingKeeps(y.client, i);
    ProcessSummary(y.client, i);
    ClientPipes(y, o);
    PipeHead(y.clientQueue, y.toClient);
    HeadIsLined(y);
    SteadyHead(y);
    ClientStaysTame(Look(y), Look(y'), i, o);
    ClientCore(Look(y), Look(y'), i, o);
    NotStuckYet(Look(y), Look(y'), i, o);
    ClientPosts(y.client, i, o) by { CoreFinishes(Look(y)); }
    ClientLined(y, o);
    TagsOf(y.client, i, o);
    ClientTagged(y, o);
  }

  lemma NotStuckYet(v: View, v': View, i: Input, o: Outcome)
    requires Roles(v) && Core(v) && ClientMoves(v, v', i.m, o) && Holds(v.tc, i.m) && Summary(v.c, i, o)
    requires TakesBackEdge(v.c, i) ==> v.s.phase != SyncDeviceInfo
    ensures !Stuck(v')
  {
    hide Count, Sent, Posted, SetExchange;
    CountShort(Sent(o.out));
    CountShort(Posted(o.out));
  }

  lemma ServerNotStuckYet(v: View, v': View, i: Input, o: Outcome)
    requires Roles(v) && Core(v) && Tame(v) && ServerMoves(v, v', i.m, o) && Holds(v.ts, i.m) && Summary(v.s, i, o)
    ensures !Stuck(v')
  {
    hide Count, Sent, Posted, TakesBackEdge;
    CountShort(Sent(o.out));
    CountShort(Posted(o.out));
  }

  /** The answer flag changes only with a device id, while none is on its way to the client. */
  lemma FlagChangesAlone(v: View, i: Input, o: Outcome)
    requires Roles(v) && Core(v) && Holds(v.ts, i.m) && Summary(v.s, i, o)
    ensures o.s.fast != v.s.fast ==> v.tc.ids == 0
  {
    hide Sent, Posted, TakesBackEdge;
  }

  lemma ServerStaysSteady(y: Sys, w: World)
    requires Steady(y) && y.serverQueue != [] && Fair(Handle(Server, w))
    requires !Fails(Process(y.server, y.serverQueue[0], w).out)
    ensures Steady(ServerHandles(y, Process(y.server, y.serverQueue[0], w)))
  {
    hide Process, Sane, Fails, Posted, Sent, Count, Core, Stuck, Lined, TakesBackEdge, Summary, Tame, Tagged, Orderly;
    var i := Input(y.serverQueue[0], w);
    var o := Process(y.server, i.m, w);
    var y' := ServerHandles(y, o);
    HandlingKeeps(y.server, i);
    ProcessSummary(y.server, i);
    ServerPipes(y, o);
    PipeHead(y.serverQueue, y.toServer);
    ServerStaysTame(Look(y), Look(y'), i, o);
    ServerNotStuckYet(Look(y), Look(y'), i, o);
    ServerCore(Look(y), Look(y'), i, o);
    ServerLined(y, o);
    TagsOf(y.server, i, o);
    FlagChangesAlone(Look(y), i, o);
    ServerTagged(y, o);
  }

  lemma DeliverStaysSteady(y: Sys, side: Side)
    requires Steady(y) && Enabled(y, Deliver(side))
    ensures Steady(Next(y, Deliver(side)))
  {
    hide Core, Roles, Covered, Tame, Tagged;
    var y' := Next(y, Deliver(side));
    assert PipeC(y') == PipeC(y) && PipeS(y') == PipeS(y);
  }

  lemma OccursTame(v: View, side: Side, m: Msg)
    requires Core(v) && Tame(v) && !m.RecvDeviceId? && (m.SaveSessionKey? ==> v.started)
    ensures Tame(if side.Client? then v.(tc := v.tc.Plus(One(m))) else v.(ts := v.ts.Plus(One(m))))
  {
  }

  lemma OccursTagged(a: seq<Msg>, m: Msg, b: seq<Msg>, fast: bool)
    requires Tagged(a + b, fast) && !m.RecvDeviceId?
    ensures Tagged(a + [m] + b, fast)
  {
    var q := a + [m] + b;
    forall k: nat | k < |q| && q[k].RecvDeviceId? ensures q[k].fastTag == fast {
      assert q[k] == (a + b)[if k < |a| then k else k - 1];
    }
  }

  lemma OccursStaysSteady(y: Sys, side: Side, m: Msg)
    requires Steady(y) && Enabled(y, Occurs(side, m))
    ensures Steady(Next(y, Occurs(side, m)))
  {
    hide Core, Stuck, Lined, Count, One, Tame, Tagged;
    InsertCounts(y.clientQueue, m, y.toClient);
    InsertCounts(y.serverQueue, m, y.toServer);
    OccursCore(Look(y), side, m);
    OccursTame(Look(y), side, m);
    if side.Client? {
      OccursLined(y, m);
      OccursTagged(y.clientQueue, m, y.toClient, y.server.fast);
    } else {
      LinedByClientSide(y, Next(y, Occurs(side, m)));
    }
  }

  /** Step k of the run is a client's return on a device id with a fast-auth tag. */
  ghost predicate ReturnsAt(ys: seq<Sys>, ts: seq<Step>, k: nat)
  {
    k < |ts| && k < |ys| && Enabled(ys[k], ts[k]) && FastReturn(ys[k], ts[k])
  }

  /** No such step before the j-th. */
  ghost predicate NoFastReturn(ys: seq<Sys>, ts: seq<Step>, j: nat)
  {
    forall k: nat :: k < j ==> !ReturnsAt(ys, ts, k)
  }

  lemma {:induction false} RunStaysSteady(ys: seq<Sys>, ts: seq<Step>, j: nat)
    requires IsFairRun(ys, ts) && j < |ys| && NoFastReturn(ys, ts, j) && !ys[j].failed
    ensures Steady(ys[j])
  {
    hide Steady, Next, Enabled, Init, Fair, FastReturn, Process;
    if j == 0 {
      OpeningSteady(ys[0]);
    } else {
      var y, t := ys[j - 1], ts[j - 1];
      RunStep(ys, ts, j - 1);
      if y.failed { FailedStays(y, t); }
      RunStaysSteady(ys, ts, j - 1);
      assert !ReturnsAt(ys, ts, j - 1);
      SteadyStep(y, t);
    }
  }

  lemma SteadyStep(y: Sys, t: Step)
    requires Steady(y) && Enabled(y, t) && Fair(t) && !FastReturn(y, t) && !Next(y, t).failed
    ensures Steady(Next(y, t))
  {
    hide Steady, Process, Fails, Sent, Posted;
    match t
    case Deliver(side) => DeliverStaysSteady(y, side);
    case Occurs(side, m) => OccursStaysSteady(y, side, m);
    case Handle(Client, w) => ClientStaysSteady(y, w);
    case Handle(Server, w) => ServerStaysSteady(y, w);
  }

  lemma OpeningSteady(y: Sys)
    requires Init(y) && !y.failed
    ensures Steady(y)
  {
    hide Core, Lined, Count, Sent, Fails, PostDeviceId, Roles;
    InitInv(y);
    var link, knowsPeer, w :| y == Opening(link, knowsPeer, w);
    var c := Create(false, link, knowsPeer);
    if w.postOk { PostDeviceIdSummary(c, w); } else { PostDeviceIdFails(c, w); }
    assert PipeS(y) == y.toServer && PipeC(y) == [];
    CountShort(PipeS(y));
  }

  /** Without such a return nothing gets stuck. */
  lemma StuckOnlyByFastReturn(ys: seq<Sys>, ts: seq<Step>, j: nat)
    requires IsFairRun(ys, ts) && j < |ys| && NoFastReturn(ys, ts, j) && !ys[j].failed
    ensures !Stuck(Look(ys[j]))
  {
    RunStaysSteady(ys, ts, j);
  }
}

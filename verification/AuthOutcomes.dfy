/** When a run of the joined sessions fails, and that a run in which nothing goes wrong authenticates both sides. */
module AuthOutcomes {
  import opened Options
  import opened Session
  import opened SessionRuns
  import opened SessionVerdicts
  import opened AuthProtocol
  import opened AuthSummaries
  import opened AuthInvariant
  import opened AuthSteps
  import opened AuthTheorems
  import opened AuthStall
  import opened AuthStallExact

  // ------------------------------------------------------ failures

  /** A message that ends its session with an error. */
  predicate Ruins(s: Session, i: Input)
  {
    Verdict(s, i).Some? && Verdict(s, i).value != Ok
  }

  lemma RuinsExactly(s: Session, i: Input)
    ensures Fails(Process(s, i.m, i.w).out) <==> Ruins(s, i)
  {
    hide Process, Verdict;
    VerdictIsExact(s, i);
    var o := Process(s, i.m, i.w);
    if Fails(o.out) {
      var e :| e in o.out && e.Completed? && e.result != Ok;
      assert Completed(e.result) in o.out;
    }
    if Ruins(s, i) { assert Completed(Verdict(s, i).value) in o.out; }
  }

  /** The step handles a message that ends its session with an error. */
  predicate Hurts(y: Sys, t: Step)
    requires Enabled(y, t)
  {
    t.Handle? && Ruins(Actor(y, t.side), Input(Queue(y, t.side)[0], t.w))
  }

  lemma StepFails(y: Sys, t: Step)
    requires Enabled(y, t)
    ensures Next(y, t).failed <==> y.failed || Hurts(y, t)
  {
    hide Process, Fails, Ruins, Sent, Posted;
    if t.Handle? { RuinsExactly(Actor(y, t.side), Input(Queue(y, t.side)[0], t.w)); }
  }

  predicate HurtsAt(ys: seq<Sys>, ts: seq<Step>, k: nat)
  {
    k < |ts| && k < |ys| && Enabled(ys[k], ts[k]) && Hurts(ys[k], ts[k])
  }

  /** A run has failed exactly if the client could not send its first device id or some message ruined its session. */
  lemma {:induction false} FailedExactly(ys: seq<Sys>, ts: seq<Step>, j: nat)
    requires IsRun(ys, ts) && j < |ys|
    ensures ys[j].failed <==> ys[0].failed || exists k: nat :: k < j && HurtsAt(ys, ts, k)
  {
    hide Next, Enabled, Hurts, Init;
    if j > 0 {
      RunStep(ys, ts, j - 1);
      StepFails(ys[j - 1], ts[j - 1]);
      FailedExactly(ys, ts, j - 1);
      assert HurtsAt(ys, ts, j - 1) <==> Hurts(ys[j - 1], ts[j - 1]);
    }
  }

  lemma OpeningFailsExactly(link: Link, knowsPeer: bool, w: World)
    ensures Opening(link, knowsPeer, w).failed <==> !w.postOk
  {
    hide Sent, Fails;
    var c := Create(false, link, knowsPeer);
    if w.postOk { PostDeviceIdSummary(c, w); } else { PostDeviceIdFails(c, w); }
  }

  // ------------------------------------------------------ runs in which nothing goes wrong

  /** Nothing a handler calls fails; whether the peer and a fast-auth key are known is left open. */
  predicate Friendly(w: World)
  {
    && w.parseOk && !w.lookup.CopyFailed? && w.postOk && w.recoverOk && w.startOk && w.processOk && w.infoOk
    && w.keyFits && w.dupOk && w.requeueOk
  }

  predicate Harmless(m: Msg)
  {
    !m.AuthError? && !m.AuthTimeout? && !m.DeviceNotTrusted? && !m.DeviceDisconnected?
  }

  predicate Smooth(t: Step)
  {
    match t
    case Deliver(_) => true
    case Handle(_, w) => Friendly(w)
    case Occurs(_, m) => Harmless(m)
  }

  ghost predicate IsSmoothRun(ys: seq<Sys>, ts: seq<Step>)
  {
    && IsRun(ys, ts) && !ys[0].failed && !ys[0].client.link.OtherLink?
    && forall j: nat :: j < |ts| ==> Smooth(ts[j])
  }

  /** On every supported link a harmless message and a friendly world end no session with an error. */
  lemma FriendlyIsSafe(s: Session, i: Input)
    requires Friendly(i.w) && Harmless(i.m) && !s.link.OtherLink?
    ensures !Ruins(s, i)
  {
  }

  predicate AllHarmless(q: seq<Msg>)
  {
    forall m :: m in q ==> Harmless(m)
  }

  predicate Calm(y: Sys)
  {
    && AllHarmless(y.clientQueue) && AllHarmless(y.serverQueue) && AllHarmless(y.toClient) && AllHarmless(y.toServer)
    && !y.client.link.OtherLink? && !y.server.link.OtherLink?
  }

  lemma {:induction false} SentIsHarmless(out: seq<Effect>)
    ensures AllHarmless(Sent(out))
  {
    if out != [] { SentIsHarmless(out[1..]); }
  }

  lemma SummaryIsHarmless(s: Session, i: Input, o: Outcome)
    requires Summary(s, i, o)
    ensures AllHarmless(Posted(o.out))
  {
    hide Posted, Sent, TakesBackEdge;
  }

  lemma CalmHandle(y: Sys, t: Step)
    requires Calm(y) && Enabled(y, t) && t.Handle? && Smooth(t)
    ensures Calm(Next(y, t)) && !Hurts(y, t)
  {
    hide Process, Summary, Verdict, Fails, Sent, Posted, Ruins, Harmless;
    var s, i := Actor(y, t.side), Input(Queue(y, t.side)[0], t.w);
    FriendlyIsSafe(s, i);
    RuinsExactly(s, i);
    ProcessSummary(s, i);
    SummaryIsHarmless(s, i, Process(s, i.m, i.w));
    SentIsHarmless(Process(s, i.m, i.w).out);
  }

  lemma CalmStep(y: Sys, t: Step)
    requires Calm(y) && Enabled(y, t) && Smooth(t)
    ensures Calm(Next(y, t)) && !Hurts(y, t)
  {
    hide Harmless, Process;
    if t.Handle? { CalmHandle(y, t); }
  }

  lemma OpeningIsCalm(y: Sys)
    requires Init(y) && !y.client.link.OtherLink?
    ensures Calm(y)
  {
    hide Sent, Harmless;
    var link, knowsPeer, w :| y == Opening(link, knowsPeer, w);
    SentIsHarmless(EnterSyncDeviceId(Create(false, link, knowsPeer), w).out);
  }

  /** Such a run never fails. */
  lemma {:induction false} SmoothRunsDoNotFail(ys: seq<Sys>, ts: seq<Step>, j: nat)
    requires IsSmoothRun(ys, ts) && j < |ys|
    ensures !ys[j].failed && Calm(ys[j])
  {
    hide Next, Enabled, Hurts, Init, Calm;
    if j == 0 {
      OpeningIsCalm(ys[0]);
    } else {
      SmoothRunsDoNotFail(ys, ts, j - 1);
      RunStep(ys, ts, j - 1);
      StepFails(ys[j - 1], ts[j - 1]);
      CalmStep(ys[j - 1], ts[j - 1]);
    }
  }

  // ------------------------------------------------------ from a key to AuthManagerSetAuthPassed

  /** The side has saved its key, or will find one in its queue. */
  predicate Keyed(v: View, side: Side)
  {
    if side.Client? then v.c.keySaved || v.tc.keys > 0 else v.s.keySaved || v.ts.keys > 0
  }

  /** Once past the first state, the client has started Hichain or has a key. */
  predicate GotGoing(v: View)
  {
    v.c.phase != SyncDeviceId ==> v.started || Keyed(v, Client)
  }

  lemma ClientKeyed(v: View, v': View, i: Input, o: Outcome)
    requires Roles(v) && Core(v) && ClientMoves(v, v', i.m, o) && Holds(v.tc, i.m) && Summary(v.c, i, o) && i.w.keyFits
    ensures forall side :: Keyed(v, side) ==> Keyed(v', side)
    ensures GotGoing(v) ==> GotGoing(v')
  {
    hide Count, Sent, Posted, TakesBackEdge, One;
    CountFast();
    CountNone();
    OneKeys(i.m);
    CountShort(Posted(o.out));
  }

  lemma ServerKeyed(v: View, v': View, i: Input, o: Outcome)
    requires Roles(v) && Core(v) && ServerMoves(v, v', i.m, o) && Holds(v.ts, i.m) && Summary(v.s, i, o) && i.w.keyFits
    ensures forall side :: Keyed(v, side) ==> Keyed(v', side)
    ensures GotGoing(v) ==> GotGoing(v')
  {
    hide Count, Sent, Posted, TakesBackEdge, One;
    CountFast();
    CountNone();
    OneKeys(i.m);
    CountShort(Posted(o.out));
  }

  lemma KeyedStep(y: Sys, t: Step)
    requires Inv(y) && Core(Look(y)) && Enabled(y, t) && Smooth(t) && !Next(y, t).failed
    ensures forall side :: Keyed(Look(y), side) ==> Keyed(Look(Next(y, t)), side)
    ensures GotGoing(Look(y)) ==> GotGoing(Look(Next(y, t)))
  {
    hide Process, Sane, Fails, Posted, Sent, Count, Core, Stuck, Lined, TakesBackEdge, Summary, Roles;
    var y' := Next(y, t);
    match t
    case Deliver(side) => assert PipeC(y') == PipeC(y) && PipeS(y') == PipeS(y);
    case Occurs(side, m) =>
      InsertCounts(y.clientQueue, m, y.toClient);
      InsertCounts(y.serverQueue, m, y.toServer);
    case Handle(Client, w) =>
      var i := Input(y.clientQueue[0], w);
      ProcessSummary(y.client, i);
      ClientPipes(y, Process(y.client, i.m, w));
      PipeHead(y.clientQueue, y.toClient);
      ClientKeyed(Look(y), Look(y'), i, Process(y.client, i.m, w));
    case Handle(Server, w) =>
      var i := Input(y.serverQueue[0], w);
      ProcessSummary(y.server, i);
      ServerPipes(y, Process(y.server, i.m, w));
      PipeHead(y.serverQueue, y.toServer);
      ServerKeyed(Look(y), Look(y'), i, Process(y.server, i.m, w));
  }

  lemma SmoothIsFair(ys: seq<Sys>, ts: seq<Step>)
    requires IsSmoothRun(ys, ts)
    ensures IsFairRun(ys, ts) && KeysFit(ts)
  {
    hide Init, IsStep;
    forall j: nat | j < |ts| ensures Fair(ts[j]) && Fits(ts[j]) { assert Smooth(ts[j]); }
  }

  /** Until the first return on a fast-auth tag the messages are conserved. */
  lemma SmoothIsCore(ys: seq<Sys>, ts: seq<Step>, j: nat)
    requires IsSmoothRun(ys, ts) && j < |ys| && NoFastReturn(ys, ts, j)
    ensures Inv(ys[j]) && Core(Look(ys[j])) && !ys[j].failed
  {
    hide Core, Stuck, Lined, Roles, Init, IsStep, ReturnsAt;
    SmoothIsFair(ys, ts);
    SmoothRunsDoNotFail(ys, ts, j);
    FairRunInv(ys, ts, j);
    StuckOnlyByFastReturn(ys, ts, j);
  }

  lemma {:induction false} KeyedStays(ys: seq<Sys>, ts: seq<Step>, j: nat, k: nat, side: Side)
    requires IsSmoothRun(ys, ts) && j <= k < |ys| && NoFastReturn(ys, ts, k) && Keyed(Look(ys[j]), side)
    ensures Keyed(Look(ys[k]), side)
  {
    hide Core, Keyed, Next, Enabled, Init, IsStep, ReturnsAt, Inv, Smooth;
    if j < k {
      KeyedStays(ys, ts, j, k - 1, side);
      SmoothIsCore(ys, ts, k - 1);
      SmoothIsCore(ys, ts, k);
      RunStep(ys, ts, k - 1);
      KeyedStep(ys[k - 1], ts[k - 1]);
    }
  }

  lemma {:induction false} RunGetsGoing(ys: seq<Sys>, ts: seq<Step>, k: nat)
    requires IsSmoothRun(ys, ts) && k < |ys| && NoFastReturn(ys, ts, k)
    ensures GotGoing(Look(ys[k]))
  {
    hide Core, Next, Enabled, Init, IsStep, ReturnsAt, Inv, Smooth, GotGoing, Keyed;
    if k == 0 {
      OpeningGetsGoing(ys[0]);
    } else {
      RunGetsGoing(ys, ts, k - 1);
      SmoothIsCore(ys, ts, k - 1);
      SmoothIsCore(ys, ts, k);
      RunStep(ys, ts, k - 1);
      KeyedStep(ys[k - 1], ts[k - 1]);
    }
  }

  lemma OpeningGetsGoing(y: Sys)
    requires Init(y)
    ensures GotGoing(Look(y))
  {
  }

  /**
   A smooth run that is at rest, and in which no client went back on a fast-auth tag: the id exchange is over
   on both sides, and the client has started Hichain or saved a key.
   */
  lemma AtRestIdsAreExchanged(ys: seq<Sys>, ts: seq<Step>, k: nat)
    requires IsSmoothRun(ys, ts) && k < |ys| && Quiescent(ys[k]) && NoFastReturn(ys, ts, k)
    ensures ys[k].client.phase != SyncDeviceId && ys[k].server.phase != SyncDeviceId
    ensures ys[k].started || ys[k].client.keySaved
  {
    hide Init, IsStep, ReturnsAt, Count, Conserved, Lined, Roles, Smooth, Sane, Stuck;
    SmoothIsCore(ys, ts, k);
    RunGetsGoing(ys, ts, k);
    CountShort(PipeC(ys[k]));
    CountShort(PipeS(ys[k]));
  }

  /**
   A smooth run that is at rest, and in which each side had a session key in its queue at some time: both
   sides have passed, if and only if no client went back on a fast-auth tag.
   */
  lemma KeysLeadToPass(ys: seq<Sys>, ts: seq<Step>, a: nat, b: nat, k: nat)
    requires IsSmoothRun(ys, ts) && a <= k && b <= k < |ys| && Quiescent(ys[k])
    requires SaveSessionKey in ys[a].clientQueue && SaveSessionKey in ys[b].serverQueue
    ensures ys[k].client.passed && ys[k].server.passed <==> NoFastReturn(ys, ts, k)
  {
    hide Init, IsStep, ReturnsAt, Count, Core, Stuck, Lined, Roles, Smooth, Sane;
    SmoothIsFair(ys, ts);
    SmoothRunsDoNotFail(ys, ts, k);
    if NoFastReturn(ys, ts, k) {
      KeyIsCounted(ys[a].clientQueue, ys[a].toClient);
      KeyIsCounted(ys[b].serverQueue, ys[b].toServer);
      KeyedStays(ys, ts, a, k, Client);
      KeyedStays(ys, ts, b, k, Server);
      CountShort(PipeC(ys[k]));
      CountShort(PipeS(ys[k]));
      QuietMeansPassed(ys, ts, k);
    } else {
      StuckExactlyAfterFastReturn(ys, ts, k);
      StuckStays(ys, ts, k, k);
    }
  }

  lemma {:induction false} KeyIsCounted(q: seq<Msg>, rest: seq<Msg>)
    requires SaveSessionKey in q
    ensures Count(q + rest).keys > 0
  {
    assert (q + rest)[1..] == q[1..] + rest;
    if q[0] != SaveSessionKey { KeyIsCounted(q[1..], rest); }
  }
}

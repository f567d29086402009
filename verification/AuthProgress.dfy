/**
 The joined sessions come to rest: apart from outside events, every delivery and every handled message
 uses up a potential that the queues, the links and the sessions hold.
 */
module AuthProgress {
  import opened Session
  import opened SessionRuns
  import opened AuthProtocol
  import opened AuthSummaries
  import opened AuthTheorems
  import opened AuthSafety

  function Peer(side: Side): Side { if side.Client? then Server else Client }

  /** What handling a message can still cause, itself included. */
  function Weight(side: Side, m: Msg): nat
  {
    if m.RecvDeviceId? then if side.Client? then 10 else 19
    else if m.SaveSessionKey? then if side.Client? then 8 else 6
    else if m.RecvDeviceInfo? then if side.Client? then 3 else 5
    else 1
  }

  function Load(side: Side, q: seq<Msg>): nat
  {
    if q == [] then 0 else Weight(side, q[0]) + Load(side, q[1..])
  }

  /** What a session can still cause by itself: early device info, and a client's way back. */
  function Stored(s: Session): nat
  {
    (if !s.early then 0 else if s.isServer then 4 else 2) + (if !s.isServer && s.idType != Udid then 11 else 0)
  }

  function Potential(y: Sys): nat
  {
    Load(Client, y.clientQueue) + Load(Server, y.serverQueue)
    + Load(Client, y.toClient) + |y.toClient| + Load(Server, y.toServer) + |y.toServer|
    + Stored(y.client) + Stored(y.server)
  }

  lemma {:induction false} LoadAdd(side: Side, a: seq<Msg>, b: seq<Msg>)
    ensures Load(side, a + b) == Load(side, a) + Load(side, b)
  {
    hide Weight;
    if a == [] {
      assert a + b == b;
    } else {
      assert (a + b)[1..] == a[1..] + b;
      LoadAdd(side, a[1..], b);
    }
  }

  // ------------------------------------------------------ what one message causes

  function EffectCost(side: Side, e: Effect): nat
  {
    match e
    case SendDeviceId(t, tag) => 1 + Weight(Peer(side), RecvDeviceId(Given(t), tag))
    case SendDeviceInfo => 1 + Weight(Peer(side), RecvDeviceInfo)
    case SendCloseAck => 1 + Weight(Peer(side), RecvCloseAck)
    case PostSelf(m) => Weight(side, m)
    case _ => 0
  }

  function Cost(side: Side, out: seq<Effect>): nat
  {
    if out == [] then 0 else EffectCost(side, out[0]) + Cost(side, out[1..])
  }

  lemma {:induction false} CostAdd(side: Side, a: seq<Effect>, b: seq<Effect>)
    ensures Cost(side, a + b) == Cost(side, a) + Cost(side, b)
  {
    hide EffectCost;
    if a == [] {
      assert a + b == b;
    } else {
      assert (a + b)[1..] == a[1..] + b;
      CostAdd(side, a[1..], b);
    }
  }

  lemma CostOne(side: Side, e: Effect)
    ensures Cost(side, [e]) == EffectCost(side, e) && Cost(side, []) == 0
  {
  }

  /** The cost of effects is the load they put on the session's queue and on the peer's link. */
  lemma {:induction false} CostIsLoad(side: Side, out: seq<Effect>)
    ensures Cost(side, out) == Load(side, Posted(out)) + Load(Peer(side), Sent(out)) + |Sent(out)|
  {
    hide Weight;
    if out != [] {
      CostIsLoad(side, out[1..]);
      var e := out[0];
      var p := if e.PostSelf? then [e.msg] else [];
      LoadAdd(side, p, Posted(out[1..]));
      LoadAdd(Peer(side), Carries(e), Sent(out[1..]));
      LoadOf(side, e);
    }
  }

  lemma LoadOf(side: Side, e: Effect)
    ensures EffectCost(side, e)
         == (if e.PostSelf? then Load(side, [e.msg]) else 0) + Load(Peer(side), Carries(e)) + |Carries(e)|
  {
    hide Weight;
  }

  function SideOf(s: Session): Side { if s.isServer then Server else Client }

  /** Handling the message uses up more than it causes. */
  predicate Pays(s: Session, m: Msg, o: Outcome)
  {
    Cost(SideOf(s), o.out) + Stored(o.s) < Weight(SideOf(s), m) + Stored(s)
  }

  /** Causes nothing and stores no more. */
  predicate Free(s: Session, o: Outcome)
  {
    Cost(SideOf(s), o.out) == 0 && Stored(o.s) <= Stored(s)
  }

  lemma CompleteFree(s: Session, r: Result)
    ensures Free(s, Complete(s, r))
  {
    CostOne(SideOf(s), Completed(r));
  }

  lemma FreePays(s: Session, m: Msg, o: Outcome)
    requires Free(s, o)
    ensures Pays(s, m, o)
  {
  }

  lemma FreeCommon(s: Session, m: Msg, w: World)
    ensures Free(s, HandleCommon(s, m)) && Free(s, HandleAuthData(s, w)) && Free(s, HandleAuthFinish(s))
  {
    hide Complete, Cost;
    CompleteFree(s, TimedOut);
    CompleteFree(s, NotTrusted);
    CompleteFree(s, Ok);
    CompleteFree(s, Disconnected);
    CompleteFree(s, HichainProcessFail);
    CompleteFree(s.(authFinished := true), Ok);
    CostOne(SideOf(s), CancelHichain);
    CostAdd(SideOf(s), Complete(s, Disconnected).out, [CancelHichain]);
  }

  // ------------------------------------------------------ device ids

  lemma PostDeviceIdCost(s: Session, w: World)
    ensures var o := PostDeviceId(s, w);
      Cost(SideOf(s), o.out) <= 1 + (if s.isServer then 10 else 19) && Stored(o.s) <= Stored(s)
  {
    hide Complete, Cost;
    CompleteFree(s.(fast := s.fast && w.packFast), SyncDevIdFail);
    CostOne(SideOf(s), SendDeviceId(s.idType, if s.isServer then s.fast && w.packFast else w.packFast));
  }

  lemma FastCost(side: Side)
    ensures Cost(side, [PostSelf(SaveSessionKey), PostSelf(AuthFinish)]) == if side.Client? then 9 else 7
  {
    hide Cost;
    CostOne(side, PostSelf(SaveSessionKey));
    CostOne(side, PostSelf(AuthFinish));
    CostAdd(side, [PostSelf(SaveSessionKey)], [PostSelf(AuthFinish)]);
    assert [PostSelf(SaveSessionKey)] + [PostSelf(AuthFinish)] == [PostSelf(SaveSessionKey), PostSelf(AuthFinish)];
  }

  /** Going on costs at most 9 or 7; going back costs 20, of which the lost way back pays 11. */
  lemma AfterDeviceIdCost(s: Session, w: World)
    ensures var o := AfterDeviceId(s, w);
      Cost(SideOf(s), o.out) + Stored(o.s) <= Stored(s) + if s.isServer then 7 else 9
  {
    hide Complete, Cost, PostDeviceId;
    FastCost(SideOf(s));
    CompleteFree(s, SyncDevIdFail);
    CompleteFree(s, HichainAuthFail);
    CostOne(SideOf(s), StartHichain);
    PostDeviceIdCost(s.(idType := Udid, phase := SyncDeviceId), w);
  }

  lemma AnswerDeviceIdPays(s: Session, m: Msg, w: World)
    requires m.RecvDeviceId?
    ensures Pays(s, m, AnswerDeviceId(s, w))
  {
    hide Cost, PostDeviceId, AfterDeviceId;
    var sent := PostDeviceId(s, w);
    PostDeviceIdCost(s, w);
    AfterDeviceIdCost(sent.s.(phase := DeviceAuth), w);
    AfterDeviceIdCost(s.(phase := DeviceAuth), w);
    CostAdd(SideOf(s), sent.out, AfterDeviceId(sent.s.(phase := DeviceAuth), w).out);
  }

  /** A client that does not go from UDID to another id type stores no more. */
  lemma StoredDescends(s: Session, u: Session)
    requires u.isServer == s.isServer && u.early == s.early && (!s.isServer ==> IdRank(u.idType) <= IdRank(s.idType))
    ensures Stored(u) <= Stored(s)
  {
  }

  lemma PaysFrom(s: Session, u: Session, m: Msg, o: Outcome)
    requires u.isServer == s.isServer && Stored(u) <= Stored(s) && Pays(u, m, o)
    ensures Pays(s, m, o)
  {
    hide Stored, Cost, Weight;
  }

  lemma ReadPays(s: Session, i: Input)
    requires i.m.RecvDeviceId?
    ensures Pays(s, i.m, AnswerDeviceId(Reads(s, i), i.w))
  {
    hide AnswerDeviceId, SetExchange, Pays, Stored, IdRank, Grows;
    ExchangeDescends(s, i.m.idType, i.w.lookup);
    StoredDescends(s, Reads(s, i));
    AnswerDeviceIdPays(Reads(s, i), i.m, i.w);
    PaysFrom(s, Reads(s, i), i.m, AnswerDeviceId(Reads(s, i), i.w));
  }

  lemma RefusedPays(s: Session, i: Input)
    requires i.m.RecvDeviceId?
    ensures Pays(s, i.m, Complete(Refuses(s, i), SyncDevIdFail))
  {
    hide Complete, SetExchange, Pays, Stored, IdRank, Free, Grows, KeepsId;
    ExchangeDescends(s, i.m.idType, i.w.lookup);
    StoredDescends(s, Refuses(s, i));
    CompleteFree(Refuses(s, i), SyncDevIdFail);
    FreePays(Refuses(s, i), i.m, Complete(Refuses(s, i), SyncDevIdFail));
    PaysFrom(s, Refuses(s, i), i.m, Complete(Refuses(s, i), SyncDevIdFail));
  }

  lemma DeviceIdPays(s: Session, i: Input)
    requires i.m.RecvDeviceId?
    ensures Pays(s, i.m, HandleDeviceId(s, i.m, i.w))
  {
    hide HandleDeviceId, AnswerDeviceId, SetExchange, Complete, Pays, Reads, Refuses, Grows;
    if i.w.parseOk && SetExchange(s, i.m.idType, i.w.lookup).ok {
      DeviceIdRead(s, i);
      ReadPays(s, i);
    } else {
      RefusedDeviceId(s, i);
      RefusedPays(s, i);
    }
  }

  // ------------------------------------------------------ keys, device info and acks

  /** Device info to the peer and, if some came early, back into the own queue. */
  lemma KeySavedCost(s: Session, w: World)
    ensures Cost(SideOf(s), KeySavedEffects(s, w))
         <= (if s.isServer then 4 else 6) + if s.early then (if s.isServer then 5 else 3) else 0
  {
    hide Cost;
    var side := SideOf(s);
    var a := if SendsInfoWithKey(s) then [SendDeviceInfo] else [];
    var b := if s.early && w.requeueOk then [PostSelf(RecvDeviceInfo)] else [];
    CostOne(side, SetSessionKey);
    CostOne(side, SendDeviceInfo);
    CostOne(side, PostSelf(RecvDeviceInfo));
    CostAdd(side, [SetSessionKey], a);
    CostAdd(side, [SetSessionKey] + a, b);
  }

  lemma KeyPays(s: Session, m: Msg, w: World)
    requires m.SaveSessionKey?
    ensures Pays(s, m, HandleSaveKey(s, w))
  {
    hide KeySavedEffects, SyncsInfo, Complete, Pays, Free, Cost;
    if !w.keyFits {
      CostOne(SideOf(s), SetSessionKey);
      FreePays(s, m, HandleSaveKey(s, w)) by { NothingFree(s); }
    } else if SyncsInfo(s, w) {
      KeySavedPays(s, m, w);
    } else {
      KeyLostPays(s, m);
    }
  }

  lemma NothingFree(s: Session)
    ensures Free(s, Outcome(s, []))
  {
    CostOne(SideOf(s), SetSessionKey);
  }

  lemma KeySavedPays(s: Session, m: Msg, w: World)
    requires m.SaveSessionKey?
    ensures Pays(s, m, Outcome(s.(keySaved := true, early := false, phase := SyncDeviceInfo), KeySavedEffects(s, w)))
  {
    hide Cost, KeySavedEffects;
    KeySavedCost(s, w);
  }

  lemma KeyLostPays(s: Session, m: Msg)
    ensures Pays(s, m, Complete(s.(keySaved := true), SyncDevInfoFail).After([SetSessionKey]))
  {
    hide Cost, Complete;
    var s1 := s.(keySaved := true);
    CostOne(SideOf(s), SetSessionKey);
    CompleteFree(s1, SyncDevInfoFail);
    CostAdd(SideOf(s), [SetSessionKey], Complete(s1, SyncDevInfoFail).out);
  }

  lemma PassAndFinishCost(s: Session, first: seq<Effect>)
    ensures var o := PassAndFinish(s, first);
      Cost(SideOf(s), o.out) == Cost(SideOf(s), first) && Stored(o.s) == Stored(s)
  {
    hide Cost;
    var side := SideOf(s);
    CostOne(side, AuthPassed);
    CostOne(side, Completed(Ok));
    CostAdd(side, first, [AuthPassed]);
    CostAdd(side, first + [AuthPassed], TryFinish(s.(passed := true)).out);
  }

  lemma InfoPays(s: Session, m: Msg, w: World)
    requires m.RecvDeviceInfo?
    ensures Pays(s, m, HandleDeviceInfo(s, w))
  {
    hide Cost, Complete, PassAndFinish;
    var side := SideOf(s);
    CostOne(side, SendDeviceInfo);
    CostOne(side, SendCloseAck);
    CompleteFree(s, UnpackDevInfoFail);
    if s.link.Wifi? {
      var s1 := s.(nodeInfo := true, closeAck := true);
      CompleteFree(s1, SyncDevInfoFail);
      PassAndFinishCost(s1, if s.isServer then [SendDeviceInfo] else []);
    } else {
      var s1 := s.(nodeInfo := true);
      CompleteFree(s1, SendFail);
      PassAndFinishCost(s1, [SendCloseAck]);
    }
  }

  lemma AckPays(s: Session, m: Msg)
    ensures Pays(s, m, HandleCloseAck(s))
  {
    hide Cost, PassAndFinish;
    var s1 := s.(closeAck := true);
    CostOne(SideOf(s), Completed(Ok));
    PassAndFinishCost(s1, []);
  }

  lemma EarlyPays(s: Session, m: Msg, w: World)
    requires m.RecvDeviceInfo?
    ensures Pays(s, m, HandleDeviceInfoEarly(s, w))
  {
    CostOne(SideOf(s), StartHichain);
  }

  /** Every message handled in any state, with any answers from the outside, uses up potential. */
  lemma ProcessPays(s: Session, i: Input)
    ensures Pays(s, i.m, Process(s, i.m, i.w))
  {
    hide HandleDeviceId, HandleAuthData, HandleSaveKey, HandleAuthFinish, HandleDeviceInfo, HandleDeviceInfoEarly,
      HandleCloseAck, HandleCommon, Complete, Free;
    FreeCommon(s, i.m, i.w);
    FreePays(s, i.m, HandleCommon(s, i.m));
    FreePays(s, i.m, HandleAuthData(s, i.w));
    FreePays(s, i.m, HandleAuthFinish(s));
    CompleteFree(s, HichainAuthError);
    FreePays(s, i.m, Complete(s, HichainAuthError));
    AckPays(s, i.m);
    if i.m.RecvDeviceId? { DeviceIdPays(s, i); }
    if i.m.SaveSessionKey? { KeyPays(s, i.m, i.w); }
    if i.m.RecvDeviceInfo? { InfoPays(s, i.m, i.w); EarlyPays(s, i.m, i.w); }
  }

  // ------------------------------------------------------ steps and runs

  lemma {:induction false} LoadHead(side: Side, q: seq<Msg>)
    requires q != []
    ensures Load(side, q) == Weight(side, q[0]) + Load(side, q[1..])
  {
  }

  lemma ClientUsesPotential(y: Sys, o: Outcome)
    requires y.clientQueue != [] && !y.client.isServer && !o.s.isServer && Pays(y.client, y.clientQueue[0], o)
    ensures Potential(ClientHandles(y, o)) < Potential(y)
  {
    hide Load, Weight, Stored, Cost, Sent, Posted, Fails;
    LoadHead(Client, y.clientQueue);
    LoadAdd(Client, y.clientQueue[1..], Posted(o.out));
    LoadAdd(Server, y.toServer, Sent(o.out));
    CostIsLoad(Client, o.out);
  }

  lemma ServerUsesPotential(y: Sys, o: Outcome)
    requires y.serverQueue != [] && y.server.isServer && o.s.isServer && Pays(y.server, y.serverQueue[0], o)
    ensures Potential(ServerHandles(y, o)) < Potential(y)
  {
    hide Load, Weight, Stored, Cost, Sent, Posted, Fails;
    LoadHead(Server, y.serverQueue);
    LoadAdd(Server, y.serverQueue[1..], Posted(o.out));
    LoadAdd(Client, y.toClient, Sent(o.out));
    CostIsLoad(Server, o.out);
  }

  lemma DeliverUsesPotential(y: Sys, side: Side)
    requires Enabled(y, Deliver(side))
    ensures Potential(Next(y, Deliver(side))) < Potential(y)
  {
    hide Load, Weight, Stored;
    match side
    case Client =>
      LoadHead(Client, y.toClient);
      LoadOne(Client, y.toClient[0]);
      LoadAdd(Client, y.clientQueue, [y.toClient[0]]);
    case Server =>
      LoadHead(Server, y.toServer);
      LoadOne(Server, y.toServer[0]);
      LoadAdd(Server, y.serverQueue, [y.toServer[0]]);
  }

  lemma LoadOne(side: Side, m: Msg)
    ensures Load(side, [m]) == Weight(side, m)
  {
    assert [m][1..] == [];
  }

  lemma LoadNone(side: Side)
    ensures Load(side, []) == 0
  {
  }

  /** What an outside event adds; every other step uses up at least one. */
  function Brought(t: Step): nat
  {
    if t.Occurs? then Weight(t.side, t.m) else 0
  }

  lemma StepUsesPotential(y: Sys, t: Step)
    requires Claims(y) && Enabled(y, t)
    ensures Potential(Next(y, t)) + (if t.Occurs? then 0 else 1) <= Potential(y) + Brought(t)
  {
    hide Potential, Process, Weight;
    match t
    case Deliver(side) => DeliverUsesPotential(y, side);
    case Occurs(side, m) => OccursAdds(y, side, m);
    case Handle(Client, w) =>
      var i := Input(y.clientQueue[0], w);
      ProcessPays(y.client, i);
      ClientUsesPotential(y, Process(y.client, i.m, w));
    case Handle(Server, w) =>
      var i := Input(y.serverQueue[0], w);
      ProcessPays(y.server, i);
      ServerUsesPotential(y, Process(y.server, i.m, w));
  }

  lemma OccursAdds(y: Sys, side: Side, m: Msg)
    requires Enabled(y, Occurs(side, m))
    ensures Potential(Next(y, Occurs(side, m))) == Potential(y) + Weight(side, m)
  {
    hide Load, Weight, Stored;
    LoadOne(side, m);
    LoadAdd(Client, y.clientQueue, [m]);
    LoadAdd(Server, y.serverQueue, [m]);
  }

  function Inner(ts: seq<Step>): nat
  {
    if ts == [] then 0 else Inner(ts[..|ts| - 1]) + if ts[|ts| - 1].Occurs? then 0 else 1
  }

  function AllBrought(ts: seq<Step>): nat
  {
    if ts == [] then 0 else AllBrought(ts[..|ts| - 1]) + Brought(ts[|ts| - 1])
  }

  /**
   In every run, whatever fails, deliveries and handled messages number at most 31 plus what the outside
   events bring: the sessions cannot keep each other busy.
   */
  lemma {:induction false} SessionsComeToRest(ys: seq<Sys>, ts: seq<Step>)
    requires IsRun(ys, ts)
    ensures Inner(ts) + Potential(ys[|ts|]) <= 31 + AllBrought(ts)
  {
    hide Potential, Brought, Next, Init;
    if ts == [] {
      OpeningPotential(ys[0]);
    } else {
      var n := |ts| - 1;
      var ys', ts' := ys[..n + 1], ts[..n];
      assert IsRun(ys', ts') by {
        forall j: nat | j < n ensures IsStep(ys'[j], ts'[j], ys'[j + 1]) { assert IsStep(ys[j], ts[j], ys[j + 1]); }
      }
      SessionsComeToRest(ys', ts');
      RunStep(ys, ts, n);
      RunClaims(ys, ts, n);
      StepUsesPotential(ys[n], ts[n]);
    }
  }

  lemma OpeningPotential(y: Sys)
    requires Init(y)
    ensures Potential(y) <= 31
  {
    hide Load, PostDeviceId, Fails, Cost, Sent, Posted;
    var link, knowsPeer, w :| y == Opening(link, knowsPeer, w);
    var c := Create(false, link, knowsPeer);
    PostDeviceIdCost(c, w);
    CostIsLoad(Client, PostDeviceId(c, w).out);
    LoadNone(Client);
    LoadNone(Server);
  }

  /** Unless the system is at rest, some delivery or some handling is possible. */
  lemma RestOrStep(y: Sys, w: World) returns (t: Step)
    requires !Quiescent(y)
    ensures !t.Occurs? && Enabled(y, t) && (t.Handle? ==> t.w == w)
  {
    if y.toClient != [] { t := Deliver(Client); }
    else if y.toServer != [] { t := Deliver(Server); }
    else if y.clientQueue != [] { t := Handle(Client, w); }
    else { t := Handle(Server, w); }
  }

  /** A delivery, or a message handled while the outside answers as w says. */
  predicate InnerStep(t: Step, w: World)
  {
    !t.Occurs? && (t.Handle? ==> t.w == w)
  }

  /** Inner steps lead to rest, and no more of them are needed than the potential. */
  lemma {:induction false} LeadToRest(y: Sys, w: World) returns (ys: seq<Sys>, ts: seq<Step>)
    requires Claims(y)
    ensures |ys| == |ts| + 1 && ys[0] == y && Quiescent(ys[|ts|]) && |ts| <= Potential(y)
    ensures forall j: nat :: j < |ts| ==> InnerStep(ts[j], w) && IsStep(ys[j], ts[j], ys[j + 1])
    decreases Potential(y)
  {
    hide Potential, Claims, Next, Quiescent;
    if Quiescent(y) {
      ys, ts := [y], [];
    } else {
      var t := RestOrStep(y, w);
      StepUsesPotential(y, t);
      StepClaims(y, t);
      var rest, more := LeadToRest(Next(y, t), w);
      ys, ts := [y] + rest, [t] + more;
      forall j: nat | j < |ts|
        ensures InnerStep(ts[j], w) && IsStep(ys[j], ts[j], ys[j + 1])
      {
        if j > 0 { assert ts[j] == more[j - 1] && ys[j] == rest[j - 1] && ys[j + 1] == rest[j - 1 + 1]; }
      }
    }
  }

  /** Every run can be continued to rest by inner steps alone, whatever the outside keeps answering. */
  lemma CanComeToRest(ys: seq<Sys>, ts: seq<Step>, w: World) returns (zs: seq<Sys>, us: seq<Step>)
    requires IsRun(ys, ts)
    ensures IsRun(ys + zs, ts + us) && Quiescent((ys + zs)[|ts + us|])
    ensures |us| <= Potential(ys[|ts|]) && forall j: nat :: j < |us| ==> InnerStep(us[j], w)
  {
    hide Potential, Claims, Next, Quiescent, Init, Enabled;
    RunClaims(ys, ts, |ts|);
    var rest, more := LeadToRest(ys[|ts|], w);
    zs, us := rest[1..], more;
    var n := |ts|;
    forall j: nat | j < |ts + us|
      ensures IsStep((ys + zs)[j], (ts + us)[j], (ys + zs)[j + 1])
    {
      if j < n {
        assert IsStep(ys[j], ts[j], ys[j + 1]);
      } else {
        assert IsStep(rest[j - n], more[j - n], rest[j - n + 1]);
        assert (ys + zs)[j] == rest[j - n] && (ys + zs)[j + 1] == rest[j - n + 1];
      }
    }
    assert (ys + zs)[n + |us|] == rest[|us|];
  }
}

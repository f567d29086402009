/**
 Safety in every run, whatever fails: a session that passed has a peer that accepted its device info.
 On WiFi this is promised to the client only.
 */
module AuthSafety {
  import opened Session
  import opened SessionRuns
  import opened AuthProtocol
  import opened AuthSummaries
  import opened AuthInvariant
  import opened AuthTheorems

  /** What a handler may claim: an ack, or a WiFi server's device info, only with node info recorded. */
  predicate Honest(s: Session, m: Msg, o: Outcome)
  {
    && (SendCloseAck in o.out ==> o.s.nodeInfo)
    && (SendDeviceInfo in o.out && s.link.Wifi? && s.isServer ==> o.s.nodeInfo)
    && (PostSelf(RecvDeviceInfo) in o.out ==> s.early)
    && PostSelf(RecvCloseAck) !in o.out
    && (o.s.closeAck ==> s.closeAck || m.RecvCloseAck? || s.link.Wifi?)
    && (o.s.early ==> s.early || m.RecvDeviceInfo?)
    && (o.s.nodeInfo ==> s.nodeInfo || m.RecvDeviceInfo?)
  }

  /** An effect that carries neither device info nor an ack. */
  predicate Harmless(e: Effect)
  {
    e != SendCloseAck && e != SendDeviceInfo && e != PostSelf(RecvDeviceInfo) && e != PostSelf(RecvCloseAck)
  }

  predicate AllHarmless(out: seq<Effect>)
  {
    forall k: nat :: k < |out| ==> Harmless(out[k])
  }

  /** Sends no device info and no ack, and records nothing. */
  predicate Quiet(s: Session, o: Outcome)
  {
    AllHarmless(o.out) && o.s.closeAck == s.closeAck && o.s.early == s.early && o.s.nodeInfo == s.nodeInfo
  }

  lemma QuietComplete(s: Session, r: Result)
    ensures Quiet(s, Complete(s, r))
  {
  }

  lemma QuietPost(s: Session, w: World)
    ensures Quiet(s, PostDeviceId(s, w))
  {
    hide Complete;
    if w.postOk {
      assert Harmless(PostDeviceId(s, w).out[0]);
    } else {
      QuietComplete(s.(fast := s.fast && w.packFast), SyncDevIdFail);
    }
  }

  lemma QuietAfter(s: Session, w: World)
    ensures Quiet(s, AfterDeviceId(s, w))
  {
    hide PostDeviceId, Complete;
    QuietPost(s.(idType := Udid, phase := SyncDeviceId), w);
    QuietComplete(s, SyncDevIdFail);
    QuietComplete(s, HichainAuthFail);
  }

  lemma QuietThen(s: Session, u: Session, first: seq<Effect>, o: Outcome)
    requires u.closeAck == s.closeAck && u.early == s.early && u.nodeInfo == s.nodeInfo
    requires AllHarmless(first) && Quiet(u, o)
    ensures Quiet(s, o.After(first))
  {
  }

  lemma QuietAnswer(s: Session, w: World)
    ensures Quiet(s, AnswerDeviceId(s, w))
  {
    hide AfterDeviceId, PostDeviceId, AllHarmless;
    QuietPost(s, w);
    var s1, s2 := PostDeviceId(s, w).s.(phase := DeviceAuth), s.(phase := DeviceAuth);
    QuietAfter(s1, w);
    QuietAfter(s2, w);
    QuietThen(s, s1, PostDeviceId(s, w).out, AfterDeviceId(s1, w));
  }

  /** The session in which a device id is refused. */
  function Refuses(s: Session, i: Input): Session
    requires i.m.RecvDeviceId?
  {
    if i.w.parseOk then s.(idType := SetExchange(s, i.m.idType, i.w.lookup).idType) else s
  }

  lemma RefusedDeviceId(s: Session, i: Input)
    requires i.m.RecvDeviceId? && (!i.w.parseOk || !SetExchange(s, i.m.idType, i.w.lookup).ok)
    ensures HandleDeviceId(s, i.m, i.w) == Complete(Refuses(s, i), SyncDevIdFail)
  {
    hide AnswerDeviceId, SetExchange, Understood, Complete;
  }

  lemma QuietDeviceId(s: Session, i: Input)
    requires i.m.RecvDeviceId?
    ensures Quiet(s, HandleDeviceId(s, i.m, i.w))
  {
    hide HandleDeviceId, AnswerDeviceId, SetExchange, Understood, AllHarmless, Complete;
    if i.w.parseOk && SetExchange(s, i.m.idType, i.w.lookup).ok {
      DeviceIdRead(s, i);
      QuietAnswer(Reads(s, i), i.w);
    } else {
      RefusedDeviceId(s, i);
      QuietComplete(Refuses(s, i), SyncDevIdFail);
    }
  }

  lemma HonestInfo(s: Session, m: Msg, w: World)
    requires m.RecvDeviceInfo?
    ensures Honest(s, m, HandleDeviceInfo(s, w))
  {
  }

  lemma HonestAck(s: Session, m: Msg)
    requires m.RecvCloseAck?
    ensures Honest(s, m, HandleCloseAck(s))
  {
  }

  lemma HonestKey(s: Session, m: Msg, w: World)
    ensures Honest(s, m, HandleSaveKey(s, w))
  {
  }

  lemma QuietIsHonest(s: Session, m: Msg, o: Outcome)
    requires Quiet(s, o)
    ensures Honest(s, m, o)
  {
  }

  lemma QuietCommon(s: Session, m: Msg, w: World)
    ensures Quiet(s, HandleCommon(s, m)) && Quiet(s, HandleAuthData(s, w)) && Quiet(s, HandleAuthFinish(s))
    ensures Quiet(s, Complete(s, HichainAuthError))
  {
    hide Complete;
    QuietComplete(s, TimedOut);
    QuietComplete(s, NotTrusted);
    QuietComplete(s, Ok);
    QuietComplete(s, Disconnected);
    QuietComplete(s, HichainProcessFail);
    QuietComplete(s, HichainAuthError);
    QuietComplete(s.(authFinished := true), Ok);
  }

  lemma ProcessHonest(s: Session, i: Input)
    ensures Honest(s, i.m, Process(s, i.m, i.w))
  {
    hide HandleDeviceId, HandleAuthData, HandleSaveKey, HandleAuthFinish, HandleDeviceInfo, HandleCloseAck,
      HandleCommon, Complete, Quiet;
    QuietCommon(s, i.m, i.w);
    HonestKey(s, i.m, i.w);
    if i.m.RecvDeviceId? { QuietDeviceId(s, i); QuietIsHonest(s, i.m, HandleDeviceId(s, i.m, i.w)); }
    if i.m.RecvDeviceInfo? { HonestInfo(s, i.m, i.w); }
    if i.m.RecvCloseAck? { HonestAck(s, i.m); }
    QuietIsHonest(s, i.m, HandleCommon(s, i.m));
    QuietIsHonest(s, i.m, HandleAuthData(s, i.w));
    QuietIsHonest(s, i.m, HandleAuthFinish(s));
    QuietIsHonest(s, i.m, Complete(s, HichainAuthError));
  }

  // ------------------------------------------------------ the joined sessions

  lemma {:induction false} SentBy(out: seq<Effect>)
    ensures RecvCloseAck in Sent(out) ==> SendCloseAck in out
    ensures RecvDeviceInfo in Sent(out) ==> SendDeviceInfo in out
    ensures forall m :: m in Posted(out) ==> PostSelf(m) in out
  {
    if out != [] {
      var rest := out[1..];
      SentBy(rest);
      assert out == [out[0]] + rest;
    }
  }

  /** Nothing claims that the server accepted device info before it did. */
  predicate ClientClaims(y: Sys)
  {
    if y.client.link.Wifi? then RecvDeviceInfo in PipeC(y) || y.client.early || y.client.nodeInfo ==> y.server.nodeInfo
    else RecvCloseAck in PipeC(y) || y.client.closeAck ==> y.server.nodeInfo
  }

  predicate ServerClaims(y: Sys)
  {
    !y.client.link.Wifi? && (RecvCloseAck in PipeS(y) || y.server.closeAck) ==> y.client.nodeInfo
  }

  predicate Claims(y: Sys)
  {
    && !y.client.isServer && y.server.isServer && y.client.link == y.server.link && Sane(y.client) && Sane(y.server)
    && ClientClaims(y) && ServerClaims(y)
  }

  lemma ClientHandleClaims(y: Sys, m: Msg, o: Outcome)
    requires Claims(y) && y.clientQueue != [] && m == y.clientQueue[0] && Honest(y.client, m, o) && Grows(y.client, o.s)
    requires Sane(o.s)
    ensures Claims(ClientHandles(y, o))
  {
    hide Sent, Posted, Fails, Sane;
    var y' := ClientHandles(y, o);
    SentBy(o.out);
    assert PipeS(y') == PipeS(y) + Sent(o.out);
    assert m in PipeC(y);
    assert forall x :: x in y.clientQueue[1..] || x in y.toClient ==> x in PipeC(y);
  }

  lemma ServerHandleClaims(y: Sys, m: Msg, o: Outcome)
    requires Claims(y) && y.serverQueue != [] && m == y.serverQueue[0] && Honest(y.server, m, o) && Grows(y.server, o.s)
    requires Sane(o.s)
    ensures Claims(ServerHandles(y, o))
  {
    hide Sent, Posted, Fails, Sane;
    var y' := ServerHandles(y, o);
    SentBy(o.out);
    assert PipeC(y') == PipeC(y) + Sent(o.out);
    assert m in PipeS(y);
    assert forall x :: x in y.serverQueue[1..] || x in y.toServer ==> x in PipeS(y);
  }

  lemma DeliverClaims(y: Sys, side: Side)
    requires Claims(y) && Enabled(y, Deliver(side))
    ensures Claims(Next(y, Deliver(side)))
  {
    hide Sane;
    var y' := Next(y, Deliver(side));
    assert PipeC(y') == PipeC(y) && PipeS(y') == PipeS(y);
  }

  lemma OccursClaims(y: Sys, side: Side, m: Msg)
    requires Claims(y) && Enabled(y, Occurs(side, m))
    ensures Claims(Next(y, Occurs(side, m)))
  {
    hide Sane;
  }

  lemma StepClaims(y: Sys, t: Step)
    requires Claims(y) && Enabled(y, t)
    ensures Claims(Next(y, t))
  {
    hide Process, ClientHandles, ServerHandles, Honest, Sane, ClientClaims, ServerClaims;
    match t
    case Deliver(side) => DeliverClaims(y, side);
    case Occurs(side, m) => OccursClaims(y, side, m);
    case Handle(side, w) =>
      var i := Input(Queue(y, side)[0], w);
      ProcessHonest(Actor(y, side), i);
      HandlingKeeps(Actor(y, side), i);
      if side.Client? {
        ClientHandleClaims(y, i.m, Process(y.client, i.m, w));
      } else {
        ServerHandleClaims(y, i.m, Process(y.server, i.m, w));
      }
  }

  lemma {:induction false} RunClaims(ys: seq<Sys>, ts: seq<Step>, j: nat)
    requires IsRun(ys, ts) && j < |ys|
    ensures Claims(ys[j])
  {
    hide Claims, Next, Enabled, Init;
    if j == 0 {
      InitClaims(ys[0]);
    } else {
      RunClaims(ys, ts, j - 1);
      RunStep(ys, ts, j - 1);
      StepClaims(ys[j - 1], ts[j - 1]);
    }
  }

  lemma InitClaims(y: Sys)
    requires Init(y)
    ensures Claims(y)
  {
    hide Sane, PostDeviceId, Fails;
    var link, knowsPeer, w :| y == Opening(link, knowsPeer, w);
    var c := Create(false, link, knowsPeer);
    assert Sane(y.client) by { StartSane(EnterSyncDeviceId(c, w)); }
    assert Sane(y.server) by { CreatedIs(true, link, false); }
    QuietPost(c, w);
    SentBy(PostDeviceId(c, w).out);
  }

  // ------------------------------------------------------ theorems

  /** Whoever has passed, the peer had accepted its device info before; on WiFi this holds for the client. */
  lemma PassedAfterPeerAccepted(ys: seq<Sys>, ts: seq<Step>, j: nat)
    requires IsRun(ys, ts) && j < |ys|
    ensures ys[j].client.passed ==> ys[j].server.nodeInfo
    ensures !ys[j].server.link.Wifi? && ys[j].server.passed ==> ys[j].client.nodeInfo
  {
    RunClaims(ys, ts, j);
  }

  /** On WiFi the server always passes before the client has accepted its device info. */
  lemma WifiServerPassesFirst(ys: seq<Sys>, ts: seq<Step>, j: nat)
    requires IsRun(ys, ts) && j < |ts| && ys[j].server.link.Wifi?
    requires !ys[j].server.passed && ys[j + 1].server.passed
    ensures !ys[j + 1].client.nodeInfo
  {
    hide Init, Process, Fails, Sent, Posted;
    RunClaims(ys, ts, j);
    RunStep(ys, ts, j);
    var y, t := ys[j], ts[j];
    if t.Handle? && t.side.Server? { ProcessOk(y.server, y.serverQueue[0], t.w); }
  }
}

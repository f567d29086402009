/** The exchange of network ids across both sessions: who ends up with which id type, and why. */
module AuthNegotiation {
  import opened Session
  import opened SessionRuns
  import opened SessionVerdicts
  import opened AuthProtocol
  import opened AuthSummaries
  import opened AuthTheorems

  // ------------------------------------------------------ one exchange

  /** What a session makes of the id type it reads. */
  lemma ReadsIdType(s: Session, i: Input)
    requires !s.isDead && i.m.RecvDeviceId? && s.phase != SyncDeviceInfo && !Fails(HandleDeviceId(s, i.m, i.w).out)
    ensures var t := SetExchange(s, i.m.idType, i.w.lookup).idType; var s' := HandleDeviceId(s, i.m, i.w).s;
      s'.idType == if TakesBackEdge(s, i) then Udid else t
  {
    hide HandleDeviceId, AnswerDeviceId, SetExchange, Understood, Fails;
    if i.w.parseOk && SetExchange(s, i.m.idType, i.w.lookup).ok {
      DeviceIdRead(s, i);
      AnswerDescends(Reads(s, i), i.w);
    } else {
      DeviceIdRejectedFails(s, i);
    }
  }

  /** The client's first device id, and the one a server answers it with. */
  function Offer(c: Session, tag: bool): Msg { RecvDeviceId(Given(c.idType), tag) }

  function Answer(s: Session, m: Msg, w: World): Msg
    requires m.RecvDeviceId?
  {
    var s' := HandleDeviceId(s, m, w).s; RecvDeviceId(Given(s'.idType), s'.fast)
  }

  /**
   A client offers its id and reads the answer, neither side failing. It stays with its network id exactly if
   it offered it and both sides find their peer; otherwise it goes on with the udid, or goes back to exchange
   it, unless fast auth takes over.
   */
  lemma NegotiationIsExact(c: Session, s: Session, tag: bool, ws: World, wc: World)
    requires !c.isServer && !c.isDead && c.phase == SyncDeviceId && c.idType != ExchangeFail
    requires s.isServer && !s.isDead && s.phase != SyncDeviceInfo
    requires !Fails(HandleDeviceId(s, Offer(c, tag), ws).out)
    requires !Fails(HandleDeviceId(c, Answer(s, Offer(c, tag), ws), wc).out)
    ensures Sent(HandleDeviceId(s, Offer(c, tag), ws).out) == [Answer(s, Offer(c, tag), ws)]
    ensures var c' := HandleDeviceId(c, Answer(s, Offer(c, tag), ws), wc).s;
      var known := c.idType == NetworkId && ws.lookup.Found? && wc.lookup.Found?;
      && (c'.idType == NetworkId <==> known)
      && (c'.phase == SyncDeviceId <==> c.idType == NetworkId && !known && !c'.fast)
      && (c.idType == Udid || c'.phase == SyncDeviceId ==> c'.idType == Udid)
  {
    hide HandleDeviceId, Fails, Sent, Posted;
    var offer := Offer(c, tag);
    var i, k := Input(offer, ws), Input(Answer(s, offer, ws), wc);
    DeviceIdSummary(s, i);
    ReadsIdType(s, i);
    DeviceIdSummary(c, k);
    ReadsIdType(c, k);
    AcceptedExchange(s, i);
    AcceptedExchange(c, k);
  }

  lemma AcceptedExchange(s: Session, i: Input)
    requires i.m.RecvDeviceId? && !Fails(HandleDeviceId(s, i.m, i.w).out)
    ensures i.w.parseOk && SetExchange(s, i.m.idType, i.w.lookup).ok
  {
    hide HandleDeviceId, SetExchange, Fails;
    if !(i.w.parseOk && SetExchange(s, i.m.idType, i.w.lookup).ok) { DeviceIdRejectedFails(s, i); }
  }

  // ------------------------------------------------------ over runs

  /** Device ids go out with the given type only, and none is posted to oneself. */
  predicate Speaks(out: seq<Effect>, t: IdType)
  {
    forall e :: e in out ==> (e.SendDeviceId? ==> e.idType == t) && (e.PostSelf? ==> !e.msg.RecvDeviceId?)
  }

  lemma PostSpeaks(s: Session, w: World)
    ensures var o := PostDeviceId(s, w); Speaks(o.out, s.idType) && o.s.idType == s.idType && o.s.isServer == s.isServer
  {
  }

  lemma AfterSpeaks(s: Session, w: World)
    ensures var o := AfterDeviceId(s, w); Speaks(o.out, o.s.idType) && (s.isServer ==> o.s.idType == s.idType)
  {
    hide PostDeviceId, Grows;
    PostSpeaks(s.(idType := Udid, phase := SyncDeviceId), w);
  }

  lemma AnswerSpeaks(u: Session, w: World)
    ensures var o := AnswerDeviceId(u, w); Speaks(o.out, o.s.idType)
  {
    hide PostDeviceId, AfterDeviceId, Grows;
    PostSpeaks(u, w);
    AfterSpeaks(PostDeviceId(u, w).s.(phase := DeviceAuth), w);
    AfterSpeaks(u.(phase := DeviceAuth), w);
  }

  lemma DeviceIdSpeaks(s: Session, i: Input)
    requires i.m.RecvDeviceId?
    ensures var o := HandleDeviceId(s, i.m, i.w); Speaks(o.out, o.s.idType)
  {
    hide HandleDeviceId, AnswerDeviceId, SetExchange, Understood;
    if i.w.parseOk && SetExchange(s, i.m.idType, i.w.lookup).ok {
      DeviceIdRead(s, i);
      AnswerSpeaks(Reads(s, i), i.w);
    } else {
      RefusedIs(s, i);
    }
  }

  /** Nothing is said about ids at all. */
  predicate Mute(out: seq<Effect>)
  {
    forall e :: e in out ==> !e.SendDeviceId? && (e.PostSelf? ==> !e.msg.RecvDeviceId?)
  }

  lemma KeyIsMute(s: Session, w: World)
    ensures Mute(HandleSaveKey(s, w).out)
  {
    hide Grows, KeepsId, SyncsInfo, SendsInfoWithKey;
  }

  lemma InfoIsMute(s: Session, w: World)
    ensures Mute(HandleDeviceInfo(s, w).out)
  {
    hide Grows, KeepsId, PassAndFinish;
    PassIsMute(s.(nodeInfo := true, closeAck := true), []);
    PassIsMute(s.(nodeInfo := true, closeAck := true), [SendDeviceInfo]);
    PassIsMute(s.(nodeInfo := true), [SendCloseAck]);
  }

  lemma PassIsMute(s: Session, first: seq<Effect>)
    requires Mute(first)
    ensures Mute(PassAndFinish(s, first).out)
  {
    hide Grows, KeepsId;
  }

  lemma AckIsMute(s: Session)
    ensures Mute(HandleCloseAck(s).out)
  {
    hide Grows, KeepsId;
  }

  lemma CommonIsMute(s: Session, m: Msg)
    ensures Mute(HandleCommon(s, m).out) && HandleCommon(s, m).s.phase == s.phase
  {
  }

  /** Any message but a device id in the first two states leaves the id type and the first state alone. */
  lemma OthersAreMute(s: Session, i: Input)
    requires s.isDead || !i.m.RecvDeviceId? || s.phase == SyncDeviceInfo
    ensures var o := Process(s, i.m, i.w);
      Mute(o.out) && o.s.idType == s.idType && (s.phase == SyncDeviceId ==> o.s.phase == SyncDeviceId)
  {
    hide HandleDeviceId, HandleSaveKey, HandleDeviceInfo, HandleCloseAck, HandleCommon, HandleAuthData,
      HandleAuthFinish, HandleDeviceInfoEarly, Complete, Mute, Grows;
    CommonIsMute(s, i.m);
    RestIsMute(s, i.w);
    KeyIsMute(s, i.w);
    InfoIsMute(s, i.w);
    AckIsMute(s);
  }

  lemma RestIsMute(s: Session, w: World)
    ensures Mute([]) && Mute(Complete(s, HichainAuthError).out) && Mute(HandleAuthData(s, w).out)
    ensures Mute(HandleAuthFinish(s).out) && Mute(HandleDeviceInfoEarly(s, w).out)
  {
    hide Grows, KeepsId;
  }

  lemma ProcessSpeaks(s: Session, i: Input)
    ensures var o := Process(s, i.m, i.w); Speaks(o.out, o.s.idType)
  {
    hide HandleDeviceId, Speaks;
    if i.m.RecvDeviceId? && s.phase != SyncDeviceInfo && !s.isDead {
      DeviceIdSpeaks(s, i);
    } else {
      OthersAreMute(s, i);
      MuteSpeaks(Process(s, i.m, i.w).out, s.idType);
    }
  }

  lemma MuteSpeaks(out: seq<Effect>, t: IdType)
    requires Mute(out)
    ensures Speaks(out, t)
  {
  }

  /** The message is a network id, and it is found. */
  predicate FindsPeer(i: Input)
  {
    i.m.RecvDeviceId? && i.m.idType == Given(NetworkId) && i.w.parseOk && i.w.lookup.Found?
  }

  /** A server takes on a network id, and a client goes on with one, only by finding it. */
  lemma NetworkIdIsFound(s: Session, i: Input)
    requires i.m.RecvDeviceId? ==> i.m.idType.Given?
    ensures var s' := Process(s, i.m, i.w).s;
      && (s.isServer && s'.idType == NetworkId ==> s.idType == NetworkId || FindsPeer(i))
      && (!s.isServer && s'.idType == NetworkId && s'.phase != SyncDeviceId ==>
          (s.idType == NetworkId && s.phase != SyncDeviceId) || FindsPeer(i))
  {
    hide HandleDeviceId;
    if i.m.RecvDeviceId? && s.phase != SyncDeviceInfo && !s.isDead {
      DeviceIdIsFound(s, i);
    } else {
      OthersAreMute(s, i);
    }
  }

  lemma DeviceIdIsFound(s: Session, i: Input)
    requires i.m.RecvDeviceId? && i.m.idType.Given? && s.phase != SyncDeviceInfo && !s.isDead
    ensures var s' := HandleDeviceId(s, i.m, i.w).s;
      && (s.isServer && s'.idType == NetworkId ==> s.idType == NetworkId || FindsPeer(i))
      && (!s.isServer && s'.idType == NetworkId && s'.phase != SyncDeviceId ==>
          (s.idType == NetworkId && s.phase != SyncDeviceId) || FindsPeer(i))
  {
    hide HandleDeviceId, AnswerDeviceId, Understood;
    if i.w.parseOk && SetExchange(s, i.m.idType, i.w.lookup).ok {
      DeviceIdRead(s, i);
      AnswerDescends(Reads(s, i), i.w);
    } else {
      DeviceIdRejected(s, i);
    }
  }

  /** Every device id in the queue carries an id type; a network id needs the condition. */
  predicate Vouched(q: seq<Msg>, found: bool)
  {
    forall m :: m in q && m.RecvDeviceId? ==> m.idType.Given? && (m.idType == Given(NetworkId) ==> found)
  }

  lemma {:induction false} SentVouched(out: seq<Effect>, t: IdType)
    requires Speaks(out, t)
    ensures Vouched(Sent(out), t == NetworkId)
  {
    if out != [] {
      assert out[0] in out;
      assert Speaks(out[1..], t);
      SentVouched(out[1..], t);
    }
  }

  lemma {:induction false} PostedVouched(out: seq<Effect>, t: IdType)
    requires Speaks(out, t)
    ensures Vouched(Posted(out), false)
  {
    if out != [] {
      assert out[0] in out;
      assert Speaks(out[1..], t);
      PostedVouched(out[1..], t);
    }
  }

  /** `server` and `client` say whether that side has found its peer by a network id. */
  predicate Agreed(y: Sys, server: bool, client: bool)
  {
    && !y.client.isServer && y.server.isServer
    && (y.server.idType == NetworkId ==> server)
    && Vouched(y.toClient, server) && Vouched(y.clientQueue, server)
    && Vouched(y.toServer, true) && Vouched(y.serverQueue, true)
    && (y.client.idType == NetworkId && y.client.phase != SyncDeviceId ==> server && client)
  }

  /** The step by which a side finds its peer. */
  predicate FindsAt(ys: seq<Sys>, ts: seq<Step>, side: Side, k: nat)
  {
    && k < |ts| && k < |ys| && ts[k].Handle? && ts[k].side == side && Queue(ys[k], side) != []
    && FindsPeer(Input(Queue(ys[k], side)[0], ts[k].w))
  }

  ghost predicate Found(ys: seq<Sys>, ts: seq<Step>, side: Side, j: nat)
  {
    exists k: nat :: k < j && FindsAt(ys, ts, side, k)
  }

  lemma AgreedHandle(y: Sys, t: Step, server: bool, client: bool)
    requires Agreed(y, server, client) && Enabled(y, t) && t.Handle?
    ensures var finds := FindsPeer(Input(Queue(y, t.side)[0], t.w));
      Agreed(Next(y, t), server || (t.side.Server? && finds), client || (t.side.Client? && finds))
  {
    hide Process, Sent, Posted, Speaks, Fails;
    var s, i := Actor(y, t.side), Input(Queue(y, t.side)[0], t.w);
    assert i.m in Queue(y, t.side);
    var o := Process(s, i.m, i.w);
    ProcessSpeaks(s, i);
    NetworkIdIsFound(s, i);
    SentVouched(o.out, o.s.idType);
    PostedVouched(o.out, o.s.idType);
  }

  lemma AgreedStep(y: Sys, t: Step, server: bool, client: bool)
    requires Agreed(y, server, client) && Enabled(y, t) && !t.Handle?
    ensures Agreed(Next(y, t), server, client)
  {
  }

  lemma OpeningAgrees(y: Sys)
    requires Init(y)
    ensures Agreed(y, false, false)
  {
    hide Sent, Speaks;
    var link, knowsPeer, w :| y == Opening(link, knowsPeer, w);
    var c := Create(false, link, knowsPeer);
    PostSpeaks(c, w);
    SentVouched(PostDeviceId(c, w).out, c.idType);
  }

  lemma {:induction false} RunAgrees(ys: seq<Sys>, ts: seq<Step>, j: nat)
    requires IsRun(ys, ts) && j < |ys|
    ensures Agreed(ys[j], Found(ys, ts, Server, j), Found(ys, ts, Client, j))
  {
    hide Agreed, Next, Enabled, Init, FindsPeer;
    if j == 0 {
      OpeningAgrees(ys[0]);
    } else {
      RunStep(ys, ts, j - 1);
      RunAgrees(ys, ts, j - 1);
      FoundExtends(ys, ts, j - 1);
      StepAgrees(ys[j - 1], ts[j - 1], Found(ys, ts, Server, j - 1), Found(ys, ts, Client, j - 1));
    }
  }

  lemma StepAgrees(y: Sys, t: Step, server: bool, client: bool)
    requires Agreed(y, server, client) && Enabled(y, t)
    ensures var finds := t.Handle? && FindsPeer(Input(Queue(y, t.side)[0], t.w));
      Agreed(Next(y, t), server || (finds && t.side.Server?), client || (finds && t.side.Client?))
  {
    hide Agreed, Next, FindsPeer;
    if t.Handle? { AgreedHandle(y, t, server, client); } else { AgreedStep(y, t, server, client); }
  }

  lemma FoundExtends(ys: seq<Sys>, ts: seq<Step>, j: nat)
    requires j < |ts| && j < |ys| && Enabled(ys[j], ts[j])
    ensures var t := ts[j]; var finds := t.Handle? && FindsPeer(Input(Queue(ys[j], t.side)[0], t.w));
      forall side :: Found(ys, ts, side, j + 1) <==> Found(ys, ts, side, j) || (finds && t.side == side)
  {
    hide FindsPeer;
    var t := ts[j];
    var finds := t.Handle? && FindsPeer(Input(Queue(ys[j], t.side)[0], t.w));
    forall side ensures Found(ys, ts, side, j + 1) <==> Found(ys, ts, side, j) || (finds && t.side == side) {
      assert FindsAt(ys, ts, side, j) <==> finds && t.side == side;
    }
  }

  /** In every run, failures included, a client goes on under a network id only after both sides found their peer. */
  lemma NetworkIdNeedsBoth(ys: seq<Sys>, ts: seq<Step>, j: nat)
    requires IsRun(ys, ts) && j < |ys| && ys[j].client.idType == NetworkId && ys[j].client.phase != SyncDeviceId
    ensures Found(ys, ts, Server, j) && Found(ys, ts, Client, j)
  {
    RunAgrees(ys, ts, j);
  }
}

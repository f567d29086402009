/** What each handler sends, posts and records, when it does not end its session in failure. */
module AuthSummaries {
  import opened Session
  import opened SessionRuns
  import opened SessionVerdicts
  import opened AuthProtocol

  lemma {:induction false} SentAdd(a: seq<Effect>, b: seq<Effect>)
    ensures Sent(a + b) == Sent(a) + Sent(b) && Posted(a + b) == Posted(a) + Posted(b)
  {
    hide Carries;
    if a == [] {
      assert a + b == b;
    } else {
      assert (a + b)[1..] == a[1..] + b;
      SentAdd(a[1..], b);
    }
  }

  /** A single effect, sent or posted. */
  lemma SentOne(e: Effect)
    ensures Sent([e]) == Carries(e)
    ensures Posted([e]) == (if e.PostSelf? then [e.msg] else [])
  {
    assert [e][1..] == [];
  }

  predicate SameFlags(s: Session, s': Session)
  {
    && s'.early == s.early && s'.nodeInfo == s.nodeInfo && s'.closeAck == s.closeAck
    && s'.keySaved == s.keySaved && s'.isDead == s.isDead
  }

  /** Neither sends, posts nor starts anything, and changes nothing the protocol looks at. */
  predicate Silent(s: Session, o: Outcome)
  {
    && Sent(o.out) == [] && Posted(o.out) == [] && StartHichain !in o.out
    && KeepsId(s, o.s) && o.s.phase == s.phase
    && o.s.early == s.early && o.s.nodeInfo == s.nodeInfo && o.s.closeAck == s.closeAck && o.s.keySaved == s.keySaved
    && (o.s.isDead && !s.isDead ==> s.nodeInfo && s.closeAck)
  }

  // ------------------------------------------------------ device id

  /** A server that takes a device id answers with its own and, with fast auth, saves the key next. */
  predicate ServerAnswers(s: Session, o: Outcome)
  {
    && SameFlags(s, o.s) && o.s.phase == DeviceAuth
    && Sent(o.out) == [RecvDeviceId(Given(o.s.idType), o.s.fast)]
    && Posted(o.out) == (if o.s.fast then [SaveSessionKey, AuthFinish] else [])
    && StartHichain !in o.out
  }

  /** A client that takes a device id goes on fast, goes back, or starts Hichain. */
  predicate ClientProceeds(s: Session, o: Outcome)
  {
    && SameFlags(s, o.s) && o.s.phase == DeviceAuth && Sent(o.out) == []
    && (StartHichain in o.out <==> !o.s.fast)
    && Posted(o.out) == (if o.s.fast then [SaveSessionKey, AuthFinish] else [])
  }

  predicate ClientGoesBack(s: Session, o: Outcome)
  {
    && SameFlags(s, o.s) && o.s.phase == SyncDeviceId && Posted(o.out) == [] && StartHichain !in o.out
    && |Sent(o.out)| == 1 && Sent(o.out)[0].RecvDeviceId?
  }

  lemma CompleteFails(s: Session, r: Result)
    requires r != Ok
    ensures Fails(Complete(s, r).out)
  {
    assert Completed(r) in Complete(s, r).out;
  }

  lemma FailsAdd(a: seq<Effect>, b: seq<Effect>)
    ensures Fails(a + b) <==> Fails(a) || Fails(b)
  {
    if Fails(a) {
      var e :| e in a && e.Completed? && e.result != Ok;
      assert e in a + b;
    }
    if Fails(b) {
      var e :| e in b && e.Completed? && e.result != Ok;
      assert e in a + b;
    }
  }

  lemma PostDeviceIdSummary(s: Session, w: World)
    requires w.postOk
    ensures var o := PostDeviceId(s, w);
      && SameFlags(s, o.s) && o.s.phase == s.phase && o.s.idType == s.idType && o.s.isServer == s.isServer
      && Sent(o.out) == [RecvDeviceId(Given(s.idType), if s.isServer then o.s.fast else w.packFast)]
      && Posted(o.out) == [] && StartHichain !in o.out && !Fails(o.out)
  {
    SentOne(PostDeviceId(s, w).out[0]);
  }

  lemma PostDeviceIdFails(s: Session, w: World)
    requires !w.postOk
    ensures Fails(PostDeviceId(s, w).out) && PostDeviceId(s, w).s.isDead
  {
    CompleteFails(s.(fast := s.fast && w.packFast), SyncDevIdFail);
  }

  lemma FastPosts()
    ensures var out := [PostSelf(SaveSessionKey), PostSelf(AuthFinish)];
      Sent(out) == [] && Posted(out) == [SaveSessionKey, AuthFinish]
  {
    SentOne(PostSelf(SaveSessionKey));
    SentOne(PostSelf(AuthFinish));
    SentAdd([PostSelf(SaveSessionKey)], [PostSelf(AuthFinish)]);
    assert [PostSelf(SaveSessionKey)] + [PostSelf(AuthFinish)] == [PostSelf(SaveSessionKey), PostSelf(AuthFinish)];
  }

  lemma ServerAfter(s: Session, w: World)
    requires s.isServer && s.phase == DeviceAuth && !s.isDead && !Fails(AfterDeviceId(s, w).out)
    ensures var o := AfterDeviceId(s, w);
      && o.s == s && Sent(o.out) == [] && Posted(o.out) == (if s.fast then [SaveSessionKey, AuthFinish] else [])
      && StartHichain !in o.out
  {
    FastPosts();
    CompleteFails(s, SyncDevIdFail);
  }

  lemma ServerAnswersId(s: Session, w: World)
    requires s.isServer && s.phase != SyncDeviceInfo && !s.isDead && !Fails(AnswerDeviceId(s, w).out)
    ensures ServerAnswers(s, AnswerDeviceId(s, w))
  {
    hide PostDeviceId, AfterDeviceId, Fails;
    if w.postOk {
      PostDeviceIdSummary(s, w);
      var sent := PostDeviceId(s, w);
      var s2 := sent.s.(phase := DeviceAuth);
      FailsAdd(sent.out, AfterDeviceId(s2, w).out);
      ServerAfter(s2, w);
      SentAdd(sent.out, AfterDeviceId(s2, w).out);
    } else {
      PostDeviceIdFails(s, w);
    }
  }

  lemma ClientAfter(s: Session, w: World)
    requires !s.isServer && s.phase == DeviceAuth && !s.isDead && !Fails(AfterDeviceId(s, w).out)
    ensures var o := AfterDeviceId(s, w);
      if !s.fast && s.idType == ExchangeFail then ClientGoesBack(s, o) else ClientProceeds(s, o)
  {
    hide PostDeviceId, Fails;
    FastPosts();
    CompleteFails(s, SyncDevIdFail);
    CompleteFails(s, HichainAuthFail);
    SentOne(StartHichain);
    var back := s.(idType := Udid, phase := SyncDeviceId);
    if w.postOk { PostDeviceIdSummary(back, w); } else { PostDeviceIdFails(back, w); }
  }

  /** A device id, handled before the last phase. */
  lemma DeviceIdSummary(s: Session, i: Input)
    requires !s.isDead && i.m.RecvDeviceId? && s.phase != SyncDeviceInfo
    requires !Fails(HandleDeviceId(s, i.m, i.w).out)
    ensures var o := HandleDeviceId(s, i.m, i.w);
      && (s.isServer ==> ServerAnswers(s, o))
      && (!s.isServer && TakesBackEdge(s, i) ==> ClientGoesBack(s, o))
      && (!s.isServer && !TakesBackEdge(s, i) ==> ClientProceeds(s, o))
      && o.s.fast == GoesFast(s, i)
      && (s.isServer && i.m.idType == Given(NetworkId) ==>
          o.s.idType == if i.w.lookup.Found? then NetworkId else ExchangeFail)
  {
    hide HandleDeviceId, AnswerDeviceId, SetExchange, Understood, Fails, AfterDeviceId, ServerAnswers, Sent, Posted;
    if i.w.parseOk && SetExchange(s, i.m.idType, i.w.lookup).ok {
      DeviceIdRead(s, i);
      var u := Reads(s, i);
      AnswerIsFast(u, i.w);
      ExchangeDescends(s, i.m.idType, i.w.lookup);
      AnswerDescends(u, i.w);
      if s.isServer {
        ServerAnswersId(u, i.w);
        ServerAnswersFrom(u, s, HandleDeviceId(s, i.m, i.w));
      } else {
        ClientAnswers(u, i.w);
        ClientAfter(u.(phase := DeviceAuth), i.w);
      }
    } else {
      DeviceIdRejectedFails(s, i);
    }
  }

  lemma PostIsFast(s: Session, w: World)
    ensures PostDeviceId(s, w).s.fast == (s.fast && w.packFast)
  {
    hide Grows, KeepsId;
  }

  lemma AfterIsFast(s: Session, w: World)
    ensures AfterDeviceId(s, w).s.fast == s.fast
  {
    hide PostDeviceId, Grows;
    PostIsFast(s.(idType := Udid, phase := SyncDeviceId), w);
  }

  lemma AnswerIsFast(u: Session, w: World)
    ensures AnswerDeviceId(u, w).s.fast == (u.fast && (u.isServer ==> w.packFast))
  {
    hide PostDeviceId, AfterDeviceId, Grows;
    PostIsFast(u, w);
    AfterIsFast(PostDeviceId(u, w).s.(phase := DeviceAuth), w);
    AfterIsFast(u.(phase := DeviceAuth), w);
  }

  lemma ServerAnswersFrom(u: Session, s: Session, o: Outcome)
    requires SameFlags(u, s) && ServerAnswers(u, o)
    ensures ServerAnswers(s, o)
  {
  }

  lemma ClientAnswers(s: Session, w: World)
    requires !s.isServer
    ensures AnswerDeviceId(s, w) == AfterDeviceId(s.(phase := DeviceAuth), w)
  {
    hide AfterDeviceId;
  }

  lemma DeviceIdRejectedFails(s: Session, i: Input)
    requires i.m.RecvDeviceId? && (!i.w.parseOk || !SetExchange(s, i.m.idType, i.w.lookup).ok)
    ensures Fails(HandleDeviceId(s, i.m, i.w).out)
  {
    hide AnswerDeviceId, SetExchange;
    assert Completed(SyncDevIdFail) in HandleDeviceId(s, i.m, i.w).out;
  }

  // ------------------------------------------------------ key and device info

  predicate KeyDone(s: Session, o: Outcome)
  {
    && o.s.phase == SyncDeviceInfo && o.s.keySaved && !o.s.early && o.s.fast == s.fast
    && o.s.nodeInfo == s.nodeInfo && o.s.closeAck == s.closeAck && o.s.isDead == s.isDead
    && Sent(o.out) == (if SendsInfoWithKey(s) then [RecvDeviceInfo] else [])
    && Posted(o.out) == (if s.early then [RecvDeviceInfo] else [])
    && StartHichain !in o.out
  }

  /** A key that fits is saved on every supported link, unless the device info that goes with it cannot be sent. */
  lemma KeySummary(s: Session, w: World)
    requires w.requeueOk
    ensures var o := HandleSaveKey(s, w);
      var sent := !s.link.OtherLink? && (w.postOk || (s.link.Wifi? && s.isServer));
      && (Fails(o.out) <==> w.keyFits && !sent)
      && (!w.keyFits ==> Silent(s, o))
      && (w.keyFits && sent ==> KeyDone(s, o))
  {
    hide Sent, Posted, Fails, KeySavedEffects, Grows;
    SentNone();
    NoneFails([]);
    FailsAdd([SetSessionKey], [Completed(SyncDevInfoFail)]);
    CompleteFails(s.(keySaved := true), SyncDevInfoFail);
    KeyEffects(s, w);
    KeySavedQuiet(s, w);
    NoneFails(KeySavedEffects(s, w));
  }

  lemma NoneFails(out: seq<Effect>)
    requires NoneCompleted(out)
    ensures !Fails(out)
  {
  }

  lemma KeyEffects(s: Session, w: World)
    requires w.requeueOk
    ensures var out := KeySavedEffects(s, w);
      && Sent(out) == (if SendsInfoWithKey(s) then [RecvDeviceInfo] else [])
      && Posted(out) == (if s.early then [RecvDeviceInfo] else [])
      && StartHichain !in out
  {
    SentOne(SetSessionKey);
    SentOne(SendDeviceInfo);
    SentOne(PostSelf(RecvDeviceInfo));
    var a := if SendsInfoWithKey(s) then [SendDeviceInfo] else [];
    var b := if s.early then [PostSelf(RecvDeviceInfo)] else [];
    SentAdd([SetSessionKey], a);
    SentAdd([SetSessionKey] + a, b);
  }

  predicate InfoDone(s: Session, o: Outcome)
  {
    && o.s.phase == s.phase && o.s.fast == s.fast && o.s.early == s.early && o.s.keySaved == s.keySaved
    && o.s.nodeInfo && o.s.closeAck == (s.closeAck || s.link.Wifi?)
    && (o.s.isDead ==> o.s.closeAck)
    && Sent(o.out) == (if !s.link.Wifi? then [RecvCloseAck] else if s.isServer then [RecvDeviceInfo] else [])
    && Posted(o.out) == [] && StartHichain !in o.out
  }

  lemma PassSummary(s: Session, first: seq<Effect>)
    requires s.nodeInfo && s.closeAck && !s.isDead && StartHichain !in first
    ensures var o := PassAndFinish(s, first);
      && o.s == s.(passed := true, isDead := s.authFinished)
      && Sent(o.out) == Sent(first) && Posted(o.out) == Posted(first) && StartHichain !in o.out
  {
    hide Sent, Posted, Fails;
    SentNone();
    SentOne(AuthPassed);
    SentOne(Completed(Ok));
    SentAdd(first, [AuthPassed]);
    SentAdd(first + [AuthPassed], TryFinish(s.(passed := true)).out);
  }

  lemma InfoSummary(s: Session, w: World)
    requires !s.isDead && s.phase == SyncDeviceInfo && !Fails(HandleDeviceInfo(s, w).out)
    ensures InfoDone(s, HandleDeviceInfo(s, w))
  {
    hide AcceptInfoWifi, AcceptInfo, Fails, InfoDone;
    CompleteFails(s, UnpackDevInfoFail);
    if w.infoOk {
      if s.link.Wifi? { WifiInfoSummary(s, w); } else { OtherInfoSummary(s, w); }
    }
  }

  lemma WifiInfoSummary(s: Session, w: World)
    requires !s.isDead && s.phase == SyncDeviceInfo && s.link.Wifi?
    requires !Fails(AcceptInfoWifi(s.(nodeInfo := true, closeAck := true), w).out)
    ensures InfoDone(s, AcceptInfoWifi(s.(nodeInfo := true, closeAck := true), w))
  {
    hide PassAndFinish, Sent, Posted, Fails;
    var s1 := s.(nodeInfo := true, closeAck := true);
    SentOne(SendDeviceInfo);
    SentNone();
    CompleteFails(s1, SyncDevInfoFail);
    PassSummary(s1, if s.isServer then [SendDeviceInfo] else []);
  }

  lemma OtherInfoSummary(s: Session, w: World)
    requires !s.isDead && s.phase == SyncDeviceInfo && !s.link.Wifi?
    requires !Fails(AcceptInfo(s.(nodeInfo := true), w).out)
    ensures InfoDone(s, AcceptInfo(s.(nodeInfo := true), w))
  {
    hide PassAndFinish, Sent, Posted, Fails;
    var s1 := s.(nodeInfo := true);
    SentOne(SendCloseAck);
    CompleteFails(s1, SendFail);
    if s1.closeAck { PassSummary(s1, [SendCloseAck]); }
  }

  lemma SentNone()
    ensures Sent([]) == [] && Posted([]) == []
  {
  }

  predicate AckDone(s: Session, o: Outcome)
  {
    && o.s.phase == s.phase && o.s.fast == s.fast && o.s.early == s.early && o.s.keySaved == s.keySaved
    && o.s.nodeInfo == s.nodeInfo && o.s.closeAck && (o.s.isDead ==> s.nodeInfo)
    && Sent(o.out) == [] && Posted(o.out) == [] && StartHichain !in o.out
  }

  lemma AckSummary(s: Session)
    requires !s.isDead
    ensures AckDone(s, HandleCloseAck(s))
  {
    hide PassAndFinish;
    SentNone();
    SentOne(Completed(Ok));
    var s1 := s.(closeAck := true);
    if s1.nodeInfo { PassSummary(s1, []); }
  }

  lemma FinishSummary(s: Session)
    requires !s.isDead
    ensures Silent(s, HandleAuthFinish(s))
  {
    SentNone();
    SentOne(Completed(Ok));
  }

  lemma CommonSummary(s: Session, m: Msg)
    requires !s.isDead && !Fails(HandleCommon(s, m).out)
    ensures Silent(s, HandleCommon(s, m))
  {
    SentNone();
    SentOne(Completed(Ok));
    CompleteFails(s, TimedOut);
    CompleteFails(s, NotTrusted);
    CompleteFails(s, Disconnected);
    FailsAdd([Completed(Disconnected)], [CancelHichain]);
  }

  lemma AuthDataSummary(s: Session, w: World)
    requires !s.isDead && !Fails(HandleAuthData(s, w).out)
    ensures Silent(s, HandleAuthData(s, w))
  {
    SentNone();
    CompleteFails(s, HichainProcessFail);
  }

  // ------------------------------------------------------ all messages

  predicate EarlyKept(s: Session, o: Outcome)
  {
    && o.s == s.(early := true) && Sent(o.out) == [] && Posted(o.out) == [] && StartHichain !in o.out
  }

  /** One message, by phase, in a session that does not fail on it. */
  ghost predicate Summary(s: Session, i: Input, o: Outcome)
  {
    if s.isDead then o.s == s && Sent(o.out) == [] && Posted(o.out) == [] && StartHichain !in o.out
    else if i.m.RecvDeviceId? && s.phase != SyncDeviceInfo then
      && (s.isServer ==> ServerAnswers(s, o))
      && (!s.isServer && TakesBackEdge(s, i) ==> ClientGoesBack(s, o))
      && (!s.isServer && !TakesBackEdge(s, i) ==> ClientProceeds(s, o))
    else if i.m.SaveSessionKey? && s.phase == DeviceAuth then if i.w.keyFits then KeyDone(s, o) else Silent(s, o)
    else if i.m.RecvDeviceInfo? && s.phase == DeviceAuth then EarlyKept(s, o)
    else if i.m.RecvDeviceInfo? && s.phase == SyncDeviceInfo then InfoDone(s, o)
    else if i.m.RecvCloseAck? && s.phase == SyncDeviceInfo then AckDone(s, o)
    else Silent(s, o)
  }

  lemma ProcessSummary(s: Session, i: Input)
    requires !Fails(Process(s, i.m, i.w).out) && i.w.dupOk && i.w.requeueOk
    ensures Summary(s, i, Process(s, i.m, i.w))
  {
    hide Process, Summary;
    if s.isDead {
      DeadSummary(s, i);
    } else {
      match s.phase
      case SyncDeviceId => FirstSummary(s, i);
      case DeviceAuth => SecondSummary(s, i);
      case SyncDeviceInfo => ThirdSummary(s, i);
    }
  }

  lemma DeadSummary(s: Session, i: Input)
    requires s.isDead
    ensures Summary(s, i, Process(s, i.m, i.w))
  {
    SentNone();
  }

  lemma FirstSummary(s: Session, i: Input)
    requires !s.isDead && s.phase == SyncDeviceId && !Fails(Process(s, i.m, i.w).out)
    ensures Summary(s, i, Process(s, i.m, i.w))
  {
    hide HandleDeviceId, HandleCommon, TakesBackEdge, Sent, Posted, Fails, ServerAnswers, ClientGoesBack,
      ClientProceeds, Silent;
    if i.m.RecvDeviceId? { DeviceIdSummary(s, i); } else { CommonSummary(s, i.m); }
  }

  lemma SecondSummary(s: Session, i: Input)
    requires !s.isDead && s.phase == DeviceAuth && !Fails(Process(s, i.m, i.w).out) && i.w.dupOk && i.w.requeueOk
    ensures Summary(s, i, Process(s, i.m, i.w))
  {
    hide HandleDeviceId, HandleAuthData, HandleSaveKey, HandleAuthFinish, HandleCommon, TakesBackEdge, Sent, Posted,
      Fails, ServerAnswers, ClientGoesBack, ClientProceeds, KeyDone, Silent, Complete;
    match i.m {
      case RecvDeviceId(_, _) => DeviceIdSummary(s, i);
      case RecvAuthData => AuthDataSummary(s, i.w);
      case SaveSessionKey => KeySummary(s, i.w);
      case AuthError => CompleteFails(s, HichainAuthError);
      case RecvDeviceInfo => SentNone();
      case AuthFinish => FinishSummary(s);
      case _ => CommonSummary(s, i.m);
    }
  }

  lemma ThirdSummary(s: Session, i: Input)
    requires !s.isDead && s.phase == SyncDeviceInfo && !Fails(Process(s, i.m, i.w).out)
    ensures Summary(s, i, Process(s, i.m, i.w))
  {
    hide HandleAuthData, HandleAuthFinish, HandleDeviceInfo, HandleCloseAck, HandleCommon, Sent, Posted, Fails,
      Silent, InfoDone, AckDone;
    match i.m {
      case RecvDeviceInfo => InfoSummary(s, i.w);
      case RecvCloseAck => AckSummary(s);
      case RecvAuthData => AuthDataSummary(s, i.w);
      case AuthFinish => FinishSummary(s);
      case _ => CommonSummary(s, i.m);
    }
  }
}

/**
 When a session completes and with which result, and what it records: tables by message and cause, against
 which the handlers are proved. Nothing but the causes listed here ends a session.
 */
module SessionVerdicts {
  import opened Options
  import opened Session
  import opened SessionRuns

  /** The tag of a device id is accepted, and a server can pack one of its own. */
  predicate GoesFast(s: Session, i: Input)
    requires i.m.RecvDeviceId?
  {
    i.m.fastTag && i.w.fastKey && (s.isServer ==> i.w.packFast)
  }

  /** A network id is checked by a server, and by a client that offered its own. */
  predicate ChecksPeer(s: Session, i: Input)
    requires i.m.RecvDeviceId?
  {
    i.m.idType == Given(NetworkId) && (s.isServer || s.idType == NetworkId)
  }

  /** A client finds out that the exchange of network ids failed, on the peer's side or on its own. */
  predicate LearnsOfFailure(s: Session, i: Input)
    requires i.m.RecvDeviceId?
  {
    match s.idType
    case Udid => false
    case ExchangeFail => i.m.idType != Absent && i.m.idType != Given(Udid)
    case NetworkId => i.m.idType == Given(ExchangeFail) || (i.m.idType == Given(NetworkId) && !i.w.lookup.Found?)
  }

  function Unless(ok: bool, r: Result): Option<Result>
  {
    if ok then None else Some(r)
  }

  function DeviceIdVerdict(s: Session, i: Input): Option<Result>
    requires i.m.RecvDeviceId?
  {
    if !i.w.parseOk || (ChecksPeer(s, i) && i.w.lookup.CopyFailed?) || (s.isServer && !i.w.postOk)
    then Some(SyncDevIdFail)
    else if GoesFast(s, i) then Unless(i.w.recoverOk, SyncDevIdFail)
    else if s.isServer then None
    else if LearnsOfFailure(s, i) then Unless(i.w.postOk, SyncDevIdFail)
    else Unless(i.w.startOk, HichainAuthFail)
  }

  function InfoVerdict(s: Session, i: Input): Option<Result>
  {
    if !i.w.infoOk then Some(UnpackDevInfoFail)
    else if !i.w.postOk && !(s.link.Wifi? && !s.isServer)
    then Some(if s.link.Wifi? then SyncDevInfoFail else SendFail)
    else if s.authFinished && (s.closeAck || s.link.Wifi?) then Some(Ok)
    else None
  }

  /** The result a message ends the session with, if it ends it. */
  function Verdict(s: Session, i: Input): Option<Result>
  {
    if s.isDead then None
    else match i.m
      case AuthTimeout => Some(TimedOut)
      case DeviceNotTrusted => Some(NotTrusted)
      case DeviceDisconnected => Some(if s.nodeInfo && s.closeAck then Ok else Disconnected)
      case AuthError => Unless(s.phase != DeviceAuth, HichainAuthError)
      case RecvDeviceId(_, _) => if s.phase == SyncDeviceInfo then None else DeviceIdVerdict(s, i)
      case RecvAuthData => Unless(s.phase == SyncDeviceId || i.w.processOk || s.authFinished, HichainProcessFail)
      case SaveSessionKey =>
        Unless(s.phase != DeviceAuth || !i.w.keyFits ||
               (!s.link.OtherLink? && (i.w.postOk || (s.link.Wifi? && s.isServer))), SyncDevInfoFail)
      case RecvDeviceInfo => if s.phase == SyncDeviceInfo then InfoVerdict(s, i) else None
      case RecvCloseAck => Unless(s.phase != SyncDeviceInfo || !s.nodeInfo || !s.authFinished, Ok)
      case AuthFinish => Unless(s.phase == SyncDeviceId || !s.nodeInfo || !s.closeAck, Ok)
  }

  /** The outcome completes the session with the result, or leaves it alone. */
  predicate Decides(s: Session, v: Option<Result>, o: Outcome)
  {
    && (forall r :: Completed(r) in o.out <==> v == Some(r))
    && o.s.isDead == (s.isDead || v.Some?)
    && (CancelHichain in o.out <==> v == Some(Disconnected))
  }

  /** Effects that neither complete a session nor cancel Hichain. */
  predicate Neutral(out: seq<Effect>)
  {
    forall e :: e in out ==> !e.Completed? && !e.CancelHichain?
  }

  lemma QuietDecides(s: Session, s': Session, out: seq<Effect>)
    requires Neutral(out) && s'.isDead == s.isDead
    ensures Decides(s, None, Outcome(s', out))
  {
  }

  lemma EndDecides(s: Session, s': Session, first: seq<Effect>, r: Result)
    requires Neutral(first) && r != Disconnected
    ensures Decides(s, Some(r), Complete(s', r).After(first))
  {
    var out := first + [Completed(r)];
    assert out[|first|] == Completed(r);
  }

  lemma CompleteDecides(s: Session, s': Session, r: Result)
    requires r != Disconnected
    ensures Decides(s, Some(r), Complete(s', r))
  {
    EndDecides(s, s', [], r);
    assert Complete(s', r).After([]) == Complete(s', r);
  }

  lemma DecidesAfter(s: Session, s': Session, v: Option<Result>, first: seq<Effect>, o: Outcome)
    requires Neutral(first) && Decides(s', v, o) && s'.isDead == s.isDead
    ensures Decides(s, v, o.After(first))
  {
  }

  lemma PassDecides(s: Session, s': Session, first: seq<Effect>)
    requires Neutral(first) && s'.isDead == s.isDead && s'.nodeInfo && s'.closeAck
    ensures Decides(s, if s'.authFinished then Some(Ok) else None, PassAndFinish(s', first))
  {
    hide Decides, Complete;
    var p := s'.(passed := true);
    if s'.authFinished {
      CompleteDecides(s', p, Ok);
    } else {
      QuietDecides(s', p, []);
    }
    DecidesAfter(s, s', if s'.authFinished then Some(Ok) else None, first + [AuthPassed], TryFinish(p));
  }

  // ------------------------------------------------------ device id

  lemma PostDecides(s: Session, s': Session, w: World)
    requires s'.isDead == s.isDead
    ensures Decides(s, Unless(w.postOk, SyncDevIdFail), PostDeviceId(s', w))
    ensures w.postOk ==> Neutral(PostDeviceId(s', w).out) && PostDeviceId(s', w).s.isDead == s'.isDead
    ensures PostDeviceId(s', w).s.fast == (s'.fast && w.packFast) && PostDeviceId(s', w).s.idType == s'.idType
  {
    hide Decides;
    if w.postOk {
      QuietDecides(s, Packed(s', w), [DeviceIdOf(Packed(s', w), w)]);
    } else {
      CompleteDecides(s, Packed(s', w), SyncDevIdFail);
    }
  }

  function AfterVerdict(s: Session, w: World): Option<Result>
  {
    if s.fast then Unless(w.recoverOk, SyncDevIdFail)
    else if s.isServer then None
    else if s.idType == ExchangeFail then Unless(w.postOk, SyncDevIdFail)
    else Unless(w.startOk, HichainAuthFail)
  }

  lemma AfterDecides(s: Session, s': Session, w: World)
    requires s'.isDead == s.isDead
    ensures Decides(s, AfterVerdict(s', w), AfterDeviceId(s', w))
  {
    hide Decides, PostDeviceId, Complete;
    QuietDecides(s, s', [PostSelf(SaveSessionKey), PostSelf(AuthFinish)]);
    QuietDecides(s, s', []);
    QuietDecides(s, s', [StartHichain]);
    CompleteDecides(s, s', SyncDevIdFail);
    CompleteDecides(s, s', HichainAuthFail);
    PostDecides(s, s'.(idType := Udid, phase := SyncDeviceId), w);
  }

  lemma ServerAnswerDecides(s: Session, u: Session, w: World)
    requires u.isDead == s.isDead && u.isServer && w.postOk
    ensures Decides(s, AfterVerdict(u.(fast := u.fast && w.packFast), w), AnswerDeviceId(u, w))
  {
    hide Decides, PostDeviceId, AfterDeviceId, Grows;
    PostDecides(s, u, w);
    var sent := PostDeviceId(u, w);
    var d := sent.s.(phase := DeviceAuth);
    SentByServer(u, w);
    AfterDecides(d, d, w);
    DecidesAfter(s, d, AfterVerdict(d, w), sent.out, AfterDeviceId(d, w));
  }

  lemma SentByServer(u: Session, w: World)
    requires u.isServer && w.postOk
    ensures PostDeviceId(u, w).s == u.(fast := u.fast && w.packFast)
  {
  }

  lemma AnswerDecides(s: Session, u: Session, w: World)
    requires u.isDead == s.isDead
    ensures Decides(s, if u.isServer && !w.postOk then Some(SyncDevIdFail)
                       else AfterVerdict(if u.isServer then u.(fast := u.fast && w.packFast) else u, w),
                    AnswerDeviceId(u, w))
  {
    hide Decides, PostDeviceId, AfterDeviceId, Grows;
    if !u.isServer {
      AfterDecides(s, u.(phase := DeviceAuth), w);
    } else if w.postOk {
      ServerAnswerDecides(s, u, w);
    } else {
      PostDecides(s, u, w);
    }
  }

  /** Reading the id type: when it is refused, and what a client that is not refused learns from it. */
  lemma ExchangeVerdict(s: Session, i: Input)
    requires i.m.RecvDeviceId?
    ensures var x := SetExchange(s, i.m.idType, i.w.lookup);
      && (x.ok <==> !(ChecksPeer(s, i) && i.w.lookup.CopyFailed?))
      && (x.ok && !s.isServer ==> (x.idType == ExchangeFail <==> LearnsOfFailure(s, i)))
  {
  }

  lemma ReadDecides(s: Session, i: Input)
    requires !s.isDead && i.m.RecvDeviceId? && i.w.parseOk && SetExchange(s, i.m.idType, i.w.lookup).ok
    ensures Decides(s, DeviceIdVerdict(s, i), AnswerDeviceId(Reads(s, i), i.w))
  {
    hide Decides, SetExchange, AnswerDeviceId, LearnsOfFailure, ChecksPeer;
    ExchangeVerdict(s, i);
    AnswerDecides(s, Reads(s, i), i.w);
  }

  lemma DeviceIdDecides(s: Session, i: Input)
    requires !s.isDead && i.m.RecvDeviceId?
    ensures Decides(s, DeviceIdVerdict(s, i), HandleDeviceId(s, i.m, i.w))
  {
    hide Decides, SetExchange, AnswerDeviceId, Complete, LearnsOfFailure, ChecksPeer, GoesFast, Understood,
      HandleDeviceId;
    ExchangeVerdict(s, i);
    var x := SetExchange(s, i.m.idType, i.w.lookup);
    if i.w.parseOk && x.ok {
      ReadDecides(s, i);
      DeviceIdRead(s, i);
    } else {
      RefusedIs(s, i);
      CompleteDecides(s, if i.w.parseOk then s.(idType := x.idType) else s, SyncDevIdFail);
    }
  }

  lemma RefusedIs(s: Session, i: Input)
    requires i.m.RecvDeviceId? && (!i.w.parseOk || !SetExchange(s, i.m.idType, i.w.lookup).ok)
    ensures var t := SetExchange(s, i.m.idType, i.w.lookup).idType;
      HandleDeviceId(s, i.m, i.w) == Complete(if i.w.parseOk then s.(idType := t) else s, SyncDevIdFail)
  {
    hide SetExchange, AnswerDeviceId, Complete;
  }

  // ------------------------------------------------------ the other messages

  lemma InfoDecides(s: Session, i: Input)
    requires !s.isDead
    ensures Decides(s, InfoVerdict(s, i), HandleDeviceInfo(s, i.w))
  {
    hide Decides, PassAndFinish, Complete;
    var s1, s2 := s.(nodeInfo := true), s.(nodeInfo := true, closeAck := true);
    CompleteDecides(s, s, UnpackDevInfoFail);
    CompleteDecides(s, s1, SendFail);
    CompleteDecides(s, s2, SyncDevInfoFail);
    QuietDecides(s, s1, [SendCloseAck]);
    PassDecides(s, s2, []);
    PassDecides(s, s2, [SendDeviceInfo]);
    if s1.closeAck { PassDecides(s, s1, [SendCloseAck]); }
  }

  lemma KeyDecides(s: Session, i: Input)
    requires In(s, DeviceAuth, i.m.SaveSessionKey?)
    ensures Decides(s, Verdict(s, i), HandleSaveKey(s, i.w))
  {
    hide Decides, Complete;
    QuietDecides(s, s, []);
    EndDecides(s, s.(keySaved := true), [SetSessionKey], SyncDevInfoFail);
    QuietDecides(s, s.(keySaved := true, early := false, phase := SyncDeviceInfo), KeySavedEffects(s, i.w));
  }

  lemma AckDecides(s: Session)
    requires !s.isDead
    ensures Decides(s, if s.nodeInfo && s.authFinished then Some(Ok) else None, HandleCloseAck(s))
  {
    hide Decides, PassAndFinish;
    var s1 := s.(closeAck := true);
    QuietDecides(s, s1, []);
    if s1.nodeInfo { PassDecides(s, s1, []); }
  }

  lemma CommonDecides(s: Session, i: Input)
    requires !s.isDead && (i.m.AuthTimeout? || i.m.DeviceNotTrusted? || i.m.DeviceDisconnected?)
    ensures Decides(s, Verdict(s, i), HandleCommon(s, i.m))
  {
    hide DeviceIdVerdict, InfoVerdict;
    CompleteDecides(s, s, TimedOut);
    CompleteDecides(s, s, NotTrusted);
    CompleteDecides(s, s, Ok);
    var out := [Completed(Disconnected), CancelHichain];
    assert Complete(s, Disconnected).Then([CancelHichain]).out == out;
    assert out[0] == Completed(Disconnected) && out[1] == CancelHichain;
  }

  /** A message completes a session as the table says, and cancels Hichain exactly on a disconnect that fails. */
  lemma VerdictIsExact(s: Session, i: Input)
    ensures Decides(s, Verdict(s, i), Process(s, i.m, i.w))
  {
    hide HandleDeviceId, DeviceIdVerdict, HandleDeviceInfo, InfoVerdict, HandleSaveKey, HandleCloseAck, HandleAuthData,
      HandleAuthFinish, HandleDeviceInfoEarly, HandleCommon, Decides, Complete, Grows, KeepsId;
    QuietDecides(s, s, []);
    if !s.isDead {
      match i.m
      case RecvDeviceId(_, _) =>
        DeviceIdDecides(s, i);
        CommonIsQuiet(s, i.m);
      case SaveSessionKey =>
        CommonIsQuiet(s, i.m);
        if s.phase == DeviceAuth { KeyDecides(s, i); }
      case RecvDeviceInfo =>
        CommonIsQuiet(s, i.m);
        InfoDecides(s, i);
        EarlyDecides(s, i.w);
      case RecvCloseAck =>
        CommonIsQuiet(s, i.m);
        AckDecides(s);
      case _ => HichainDecides(s, i);
    }
  }

  lemma CommonIsQuiet(s: Session, m: Msg)
    requires !m.AuthTimeout? && !m.DeviceNotTrusted? && !m.DeviceDisconnected?
    ensures HandleCommon(s, m) == Outcome(s, [])
  {
  }

  lemma EarlyDecides(s: Session, w: World)
    ensures Decides(s, None, HandleDeviceInfoEarly(s, w))
  {
    QuietDecides(s, s.(early := w.dupOk), []);
  }

  /** What Hichain, the timer, the trust check and the link report. */
  lemma HichainDecides(s: Session, i: Input)
    requires !s.isDead && (i.m.RecvAuthData? || i.m.AuthError? || i.m.AuthFinish? || i.m.AuthTimeout?
                           || i.m.DeviceNotTrusted? || i.m.DeviceDisconnected?)
    ensures Decides(s, Verdict(s, i), Process(s, i.m, i.w))
  {
    hide DeviceIdVerdict, InfoVerdict, Decides, Complete, HandleCommon;
    QuietDecides(s, s, []);
    match i.m
    case RecvAuthData =>
      CommonIsQuiet(s, i.m);
      CompleteDecides(s, s, HichainProcessFail);
    case AuthError =>
      CommonIsQuiet(s, i.m);
      CompleteDecides(s, s, HichainAuthError);
    case AuthFinish =>
      CommonIsQuiet(s, i.m);
      QuietDecides(s, s.(authFinished := true), []);
      CompleteDecides(s, s.(authFinished := true), Ok);
    case _ => CommonDecides(s, i);
  }

  /** The session lives, is in the phase and handles the message. */
  predicate In(s: Session, p: Phase, handles: bool)
  {
    !s.isDead && s.phase == p && handles
  }

  predicate Reports(out: seq<Effect>, keyed: bool, passed: bool)
  {
    (SetSessionKey in out <==> keyed) && (AuthPassed in out <==> passed)
  }

  lemma ReportsAdd(a: seq<Effect>, b: seq<Effect>, keyed: bool, passed: bool)
    requires Reports(a, false, false) && Reports(b, keyed, passed)
    ensures Reports(a + b, keyed, passed)
  {
  }

  lemma DeviceIdReports(s: Session, i: Input)
    requires i.m.RecvDeviceId?
    ensures Reports(HandleDeviceId(s, i.m, i.w).out, false, false)
  {
    hide SetExchange, AnswerDeviceId, Understood, HandleDeviceId;
    if i.w.parseOk && SetExchange(s, i.m.idType, i.w.lookup).ok {
      DeviceIdRead(s, i);
      AnswerReports(Reads(s, i), i.w);
    } else {
      RefusedIs(s, i);
    }
  }

  lemma PostReports(s: Session, w: World)
    ensures Reports(PostDeviceId(s, w).out, false, false)
  {
  }

  lemma AfterReports(s: Session, w: World)
    ensures Reports(AfterDeviceId(s, w).out, false, false)
  {
    hide PostDeviceId, Grows, KeepsId;
    PostReports(s.(idType := Udid, phase := SyncDeviceId), w);
  }

  lemma AnswerReports(u: Session, w: World)
    ensures Reports(AnswerDeviceId(u, w).out, false, false)
  {
    hide AfterDeviceId, PostDeviceId, Grows, KeepsId;
    PostReports(u, w);
    AfterReports(u.(phase := DeviceAuth), w);
    AfterReports(PostDeviceId(u, w).s.(phase := DeviceAuth), w);
    ReportsAdd(PostDeviceId(u, w).out, AfterDeviceId(PostDeviceId(u, w).s.(phase := DeviceAuth), w).out, false, false);
  }

  lemma KeyReports(s: Session, w: World)
    ensures Reports(HandleSaveKey(s, w).out, w.keyFits, false)
  {
    hide Grows, KeepsId;
    if w.keyFits { assert HandleSaveKey(s, w).out[0] == SetSessionKey; }
  }

  lemma PassReports(s: Session, first: seq<Effect>)
    requires Reports(first, false, false)
    ensures Reports(PassAndFinish(s, first).out, false, true)
  {
    hide Grows, KeepsId;
    var out := first + [AuthPassed];
    assert out[|first|] == AuthPassed;
    assert AuthPassed in out + TryFinish(s.(passed := true)).out;
  }

  lemma InfoReports(s: Session, w: World)
    ensures var sent := w.postOk || (s.link.Wifi? && !s.isServer);
      Reports(HandleDeviceInfo(s, w).out, false, w.infoOk && (s.link.Wifi? || s.closeAck) && sent)
  {
    hide PassAndFinish, Grows, KeepsId;
    var s2 := s.(nodeInfo := true, closeAck := true);
    PassReports(s2, []);
    PassReports(s2, [SendDeviceInfo]);
    PassReports(s.(nodeInfo := true), [SendCloseAck]);
  }

  lemma AckReports(s: Session)
    ensures Reports(HandleCloseAck(s).out, false, s.nodeInfo)
  {
    hide PassAndFinish, Grows, KeepsId;
    PassReports(s.(closeAck := true), []);
  }

  lemma CommonReports(s: Session, m: Msg)
    ensures Reports(HandleCommon(s, m).out, false, false)
  {
  }

  /** It has everything a passing session needs, and nothing it had to send on the way was lost. */
  predicate PassesNow(s: Session, i: Input)
  {
    && !s.isDead && s.phase == SyncDeviceInfo
    && match i.m
      case RecvDeviceInfo =>
        i.w.infoOk && (s.link.Wifi? || s.closeAck) && (i.w.postOk || (s.link.Wifi? && !s.isServer))
      case RecvCloseAck => s.nodeInfo
      case _ => false
  }

  /** The auth manager hears of a key exactly when one is recorded, and of success exactly when the session passes. */
  lemma ReportsExactly(s: Session, i: Input)
    ensures Reports(Process(s, i.m, i.w).out, In(s, DeviceAuth, i.m.SaveSessionKey? && i.w.keyFits), PassesNow(s, i))
  {
    hide HandleDeviceId, HandleSaveKey, HandleDeviceInfo, HandleCloseAck, HandleCommon, HandleAuthData,
      HandleAuthFinish, HandleDeviceInfoEarly, Complete, Reports, Grows, KeepsId;
    CommonReports(s, i.m);
    OthersReport(s, i.w);
    match i.m
    case RecvDeviceId(_, _) => DeviceIdReports(s, i);
    case SaveSessionKey => KeyReports(s, i.w);
    case RecvDeviceInfo => InfoReports(s, i.w);
    case RecvCloseAck => AckReports(s);
    case _ =>
  }

  /** No other handler reports a key or success. */
  lemma OthersReport(s: Session, w: World)
    ensures Reports([], false, false) && Reports(Complete(s, HichainAuthError).out, false, false)
    ensures Reports(HandleAuthData(s, w).out, false, false) && Reports(HandleAuthFinish(s).out, false, false)
    ensures Reports(HandleDeviceInfoEarly(s, w).out, false, false)
  {
    hide Grows, KeepsId;
  }

  /** What a message records: each flag is set by its own message in its own phase, and by nothing else. */
  predicate Records(s: Session, i: Input, s': Session)
  {
    var m, w := i.m, i.w;
    var keyed := In(s, DeviceAuth, m.SaveSessionKey? && w.keyFits);
    var informed := In(s, SyncDeviceInfo, m.RecvDeviceInfo? && w.infoOk);
    && s'.keySaved == (s.keySaved || keyed)
    && s'.nodeInfo == (s.nodeInfo || informed)
    && s'.closeAck == (s.closeAck || In(s, SyncDeviceInfo, m.RecvCloseAck?) || (informed && s.link.Wifi?))
    && s'.authFinished == (s.authFinished || (!s.isDead && s.phase != SyncDeviceId && m.AuthFinish?))
    && s'.early == (if In(s, DeviceAuth, m.RecvDeviceInfo?) then w.dupOk else s.early && !(keyed && !s'.isDead))
  }

  lemma RecordsExactly(s: Session, i: Input)
    ensures Records(s, i, Process(s, i.m, i.w).s)
  {
    hide Process, Records;
    if s.isDead {
      DeadRecords(s, i);
    } else if i.m.RecvDeviceId? {
      DeviceIdRecorded(s, i);
    } else if i.m.SaveSessionKey? {
      KeyRecorded(s, i);
    } else if i.m.RecvDeviceInfo? {
      if s.phase == SyncDeviceInfo { InfoRecorded(s, i); } else { EarlyRecorded(s, i); }
    } else if i.m.RecvCloseAck? {
      AckRecorded(s, i);
    } else {
      RestRecorded(s, i);
    }
  }

  lemma DeadRecords(s: Session, i: Input)
    requires s.isDead
    ensures Records(s, i, Process(s, i.m, i.w).s)
  {
  }

  predicate SameRecords(s: Session, s': Session)
  {
    && s'.keySaved == s.keySaved && s'.nodeInfo == s.nodeInfo && s'.closeAck == s.closeAck
    && s'.authFinished == s.authFinished && s'.early == s.early
  }

  lemma CompleteRecords(s: Session, r: Result)
    ensures SameRecords(s, Complete(s, r).s)
  {
  }

  lemma FinishRecords(s: Session, first: seq<Effect>)
    ensures SameRecords(s, TryFinish(s).s) && SameRecords(s, PassAndFinish(s, first).s)
  {
  }

  lemma DeviceIdRecorded(s: Session, i: Input)
    requires !s.isDead && i.m.RecvDeviceId?
    ensures Records(s, i, Process(s, i.m, i.w).s)
  {
    hide HandleDeviceId, Grows, KeepsId;
    CommonIsQuiet(s, i.m);
    DeviceIdRecords(s, i);
  }

  lemma KeyRecorded(s: Session, i: Input)
    requires !s.isDead && i.m.SaveSessionKey?
    ensures Records(s, i, Process(s, i.m, i.w).s)
  {
    hide Grows, KeepsId, HandleSaveKey, HandleCommon;
    CommonIsQuiet(s, i.m);
    KeyRecords(s, i.w);
  }

  lemma KeyRecords(s: Session, w: World)
    requires !s.isDead
    ensures var s' := HandleSaveKey(s, w).s;
      SameRecords(if w.keyFits then s.(keySaved := true, early := s.early && s'.isDead) else s, s')
  {
    hide Grows, KeepsId, KeySavedEffects, SyncsInfo;
  }

  lemma InfoRecorded(s: Session, i: Input)
    requires In(s, SyncDeviceInfo, i.m.RecvDeviceInfo?)
    ensures Records(s, i, Process(s, i.m, i.w).s)
  {
    hide HandleDeviceInfo, Grows, KeepsId;
    assert Process(s, i.m, i.w) == HandleDeviceInfo(s, i.w);
    hide Process;
    InfoRecords(s, i.w);
  }

  lemma EarlyRecorded(s: Session, i: Input)
    requires !s.isDead && i.m.RecvDeviceInfo? && s.phase != SyncDeviceInfo
    ensures Records(s, i, Process(s, i.m, i.w).s)
  {
    hide HandleCommon, Grows, KeepsId;
    CommonIsQuiet(s, i.m);
  }

  lemma AckRecorded(s: Session, i: Input)
    requires !s.isDead && i.m.RecvCloseAck?
    ensures Records(s, i, Process(s, i.m, i.w).s)
  {
    hide HandleCloseAck, HandleCommon, Grows, KeepsId;
    CommonIsQuiet(s, i.m);
    AckRecords(s);
  }

  lemma RestRecorded(s: Session, i: Input)
    requires !s.isDead && !i.m.RecvDeviceId? && !i.m.SaveSessionKey? && !i.m.RecvDeviceInfo? && !i.m.RecvCloseAck?
    ensures Records(s, i, Process(s, i.m, i.w).s)
  {
    hide HandleAuthData, HandleCommon, Complete, TryFinish, Grows, KeepsId;
    CommonRecords(s, i.m);
    AuthDataRecords(s, i.w);
    CompleteRecords(s, HichainAuthError);
    FinishRecords(s.(authFinished := true), []);
  }

  lemma CommonRecords(s: Session, m: Msg)
    ensures SameRecords(s, HandleCommon(s, m).s)
  {
    hide Grows, KeepsId;
  }

  lemma AuthDataRecords(s: Session, w: World)
    ensures SameRecords(s, HandleAuthData(s, w).s)
  {
  }

  lemma InfoRecords(s: Session, w: World)
    ensures var s' := HandleDeviceInfo(s, w).s;
      SameRecords(if !w.infoOk then s else s.(nodeInfo := true, closeAck := s.closeAck || s.link.Wifi?), s')
  {
    hide Complete, PassAndFinish, Grows, KeepsId;
    var s1, s2 := s.(nodeInfo := true), s.(nodeInfo := true, closeAck := true);
    CompleteRecords(s, UnpackDevInfoFail);
    CompleteRecords(s2, SyncDevInfoFail);
    CompleteRecords(s1, SendFail);
    FinishRecords(s2, []);
    FinishRecords(s2, [SendDeviceInfo]);
    FinishRecords(s1, [SendCloseAck]);
  }

  lemma AckRecords(s: Session)
    ensures SameRecords(s.(closeAck := true), HandleCloseAck(s).s)
  {
    hide Grows, KeepsId;
  }

  lemma PostRecords(s: Session, w: World)
    ensures SameRecords(s, PostDeviceId(s, w).s)
  {
    hide Grows, KeepsId;
  }

  lemma AfterRecords(s: Session, w: World)
    ensures SameRecords(s, AfterDeviceId(s, w).s)
  {
    hide Complete, PostDeviceId, Grows, KeepsId;
    CompleteRecords(s, SyncDevIdFail);
    CompleteRecords(s, HichainAuthFail);
    PostRecords(s.(idType := Udid, phase := SyncDeviceId), w);
  }

  lemma AnswerRecords(u: Session, w: World)
    ensures SameRecords(u, AnswerDeviceId(u, w).s)
  {
    hide AfterDeviceId, PostDeviceId, Grows, KeepsId;
    PostRecords(u, w);
    AfterRecords(u.(phase := DeviceAuth), w);
    AfterRecords(PostDeviceId(u, w).s.(phase := DeviceAuth), w);
  }

  lemma DeviceIdRecords(s: Session, i: Input)
    requires i.m.RecvDeviceId?
    ensures SameRecords(s, HandleDeviceId(s, i.m, i.w).s)
  {
    hide SetExchange, AnswerDeviceId, Grows, KeepsId, Understood, HandleDeviceId;
    if i.w.parseOk && SetExchange(s, i.m.idType, i.w.lookup).ok {
      DeviceIdRead(s, i);
      AnswerRecords(Reads(s, i), i.w);
    } else {
      RefusedIs(s, i);
    }
  }
}

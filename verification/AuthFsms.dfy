/**
 The session as the source writes it: an object whose handlers update its fields one by one and call
 out. It keeps the theorems of module SessionRuns as its own invariant, so that whoever drives it knows
 after every message what the whole history of the session promises.
 */
module AuthFsms {
  import opened Session
  import opened Options
  import opened SessionRuns
  import opened SessionVerdicts

  class AuthFsm {
    const isServer: bool
    const link: Link
    var phase: Phase
    var idType: IdType
    var isSupportFastAuth: bool
    var hasDeviceInfoData: bool
    var isNodeInfoReceived: bool
    var isCloseAckReceived: bool
    var isAuthFinished: bool
    var isDead: bool
    var keySaved: bool
    var passed: bool
    var calls: seq<Effect>          // what was sent, posted and reported, in order
    ghost var start: Outcome        // the session as it was started
    ghost var history: seq<Input>   // the messages handled since

    /** The value the fields stand for. */
    function State(): (s: Session)
      reads `phase, `idType, `isSupportFastAuth, `hasDeviceInfoData, `isNodeInfoReceived, `isCloseAckReceived,
            `isAuthFinished, `isDead, `keySaved, `passed
      ensures s.isServer == isServer && s.link == link && s.phase == phase && s.idType == idType
      ensures s.fast == isSupportFastAuth && s.early == hasDeviceInfoData && s.nodeInfo == isNodeInfoReceived
      ensures s.closeAck == isCloseAckReceived && s.authFinished == isAuthFinished && s.isDead == isDead
      ensures s.keySaved == keySaved && s.passed == passed
    {
      Session(isServer, link, phase, idType, isSupportFastAuth, hasDeviceInfoData, isNodeInfoReceived,
              isCloseAckReceived, isAuthFinished, isDead, keySaved, passed)
    }

    /**
     The object is where its messages lead from its start, its flags are consistent, it has completed once if
     it is dead and never otherwise, and it reported success only with everything recorded and only after
     AuthManagerSetAuthPassed.
     */
    ghost predicate Valid()
      reads this
    {
      && Started(start) && Outcome(State(), calls) == Play(start, history)
      && Sane(State())
      && Completions(calls) == (if isDead then 1 else 0)
      && SucceedsRightly(Outcome(State(), calls), history)
    }

    /** The fields are as the outcome says, with the outcome's effects added to the calls made before. */
    predicate Did(o: Outcome, before: seq<Effect>)
      reads this
    {
      State() == o.s && calls == before + o.out
    }

    /** CreateAuthFsm: nothing recorded, nothing called. */
    constructor (isServer: bool, link: Link, knowsPeer: bool)
      ensures State() == Create(isServer, link, knowsPeer) && calls == []
    {
      this.isServer, this.link, phase := isServer, link, SyncDeviceId;
      idType := if !isServer && link.Ble? && knowsPeer then NetworkId else Udid;
      isSupportFastAuth, hasDeviceInfoData, isNodeInfoReceived, isCloseAckReceived := false, false, false, false;
      isAuthFinished, isDead, keySaved, passed, calls := false, false, false, false, [];
      start, history := Outcome(Create(isServer, link, knowsPeer), []), [];
    }

    /** LnnFsmStart: the session enters its first state, and its history begins. */
    method Start(ghost knowsPeer: bool, w: World)
      requires State() == Create(isServer, link, knowsPeer) && calls == []
      modifies this
      ensures Valid() && history == [] && phase == SyncDeviceId && !passed
      ensures isDead <==> !isServer && !w.postOk
      ensures idType == NetworkId <==> !isServer && link.Ble? && knowsPeer
    {
      hide State, Sane, Completions, SucceedsRightly, Started, EnterSyncDeviceId, Create;
      SyncDevIdStateEnter(w);
      start, history := EnterSyncDeviceId(Create(isServer, link, knowsPeer), w), [];
      StartedFrom(isServer, link, knowsPeer, w);
      PlayedSoFar(start, history);
      assert calls == start.out && Play(start, history) == start;
    }

    /** LnnFsmTransactState, without the entry function. */
    method TransactState(p: Phase)
      modifies `phase
      ensures State() == old(State()).(phase := p)
    {
      phase := p;
    }

    method SetIdType(t: IdType)
      modifies `idType
      ensures State() == old(State()).(idType := t)
    {
      idType := t;
    }

    method Call(e: Effect)
      modifies `calls
      ensures calls == old(calls) + [e]
    {
      calls := calls + [e];
    }

    method CompleteAuthSession(result: Result)
      modifies this
      ensures Did(Complete(old(State()), result), old(calls))
    {
      calls := calls + [Completed(result)];
      isDead := true;
    }

    method TryFinishAuthSession()
      modifies this
      ensures Did(TryFinish(old(State())), old(calls))
    {
      if isNodeInfoReceived && isCloseAckReceived && isAuthFinished { CompleteAuthSession(Ok); }
    }

    method SetAuthPassed()
      modifies this
      ensures Did(Outcome(old(State()).(passed := true), [AuthPassed]), old(calls))
    {
      passed := true;
      calls := calls + [AuthPassed];
    }

    /** AuthManagerSetAuthPassed, then TryFinishAuthSession; `sent` is what the handler sent just before. */
    method PassThenFinish(ghost sent: seq<Effect>, ghost before: seq<Effect>)
      requires calls == before + sent
      modifies this
      ensures Did(PassAndFinish(old(State()), sent), before)
    {
      SetAuthPassed();
      TryFinishAuthSession();
    }

    method PackFastAuth(w: World)
      modifies `isSupportFastAuth
      ensures State() == Packed(old(State()), w)
    {
      isSupportFastAuth := isSupportFastAuth && w.packFast;
    }

    method PostDeviceIdMessage(w: World) returns (ok: bool)
      modifies this
      ensures ok == w.postOk
      ensures var p := Packed(old(State()), w); Did(Outcome(p, if ok then [DeviceIdOf(p, w)] else []), old(calls))
    {
      hide State, Packed;
      PackFastAuth(w);
      ok := w.postOk;
      if ok { Call(SendDeviceId(idType, if isServer then isSupportFastAuth else w.packFast)); }
    }

    method SyncDevIdStateEnter(w: World)
      modifies this
      ensures Did(EnterSyncDeviceId(old(State()), w), old(calls))
    {
      if !isServer {
        var ok := PostDeviceIdMessage(w);
        if !ok { CompleteAuthSession(SyncDevIdFail); }
      }
    }

    method VerifyExchangeIdType(given: WireIdType, lookup: Lookup) returns (ok: bool)
      modifies this
      ensures var x := VerifyExchange(old(State()).idType, given, lookup);
        ok == x.ok && Did(Outcome(old(State()).(idType := x.idType), []), old(calls))
    {
      if given == Given(NetworkId) {
        if lookup.NotFound? {
          idType := ExchangeFail;
        } else if lookup.CopyFailed? {
          idType := ExchangeFail;
          return false;
        } else {
          idType := NetworkId;
        }
      }
      return true;
    }

    /** A client that sent its network id reads the peer's answer. */
    method SetClientIdType(given: WireIdType, lookup: Lookup) returns (ok: bool)
      requires idType == NetworkId
      modifies this
      ensures var x := VerifyExchange(if given == Given(ExchangeFail) then ExchangeFail else NetworkId, given, lookup);
        ok == x.ok && Did(Outcome(old(State()).(idType := x.idType), []), old(calls))
    {
      hide VerifyExchange;
      if given == Given(ExchangeFail) { idType := ExchangeFail; }
      ok := VerifyExchangeIdType(given, lookup);
    }

    method SetExchangeIdType(given: WireIdType, lookup: Lookup) returns (ok: bool)
      modifies this
      ensures var x := SetExchange(old(State()), given, lookup);
        ok == x.ok && Did(Outcome(old(State()).(idType := x.idType), []), old(calls))
    {
      hide State, VerifyExchange;
      if given.Absent? || given == Given(Udid) {
        SetIdType(Udid);
        ok := true;
      } else if isServer {
        ok := VerifyExchangeIdType(given, lookup);
      } else if idType == NetworkId {
        ok := SetClientIdType(given, lookup);
      } else {
        ok := true;
      }
    }

    /** The part of the device id handler behind the transition to the second state. */
    method ProceedAfterDeviceId(w: World)
      modifies this
      ensures Did(AfterDeviceId(old(State()), w), old(calls))
    {
      if isSupportFastAuth {
        if !w.recoverOk {
          CompleteAuthSession(SyncDevIdFail);
          return;
        }
        calls := calls + [PostSelf(SaveSessionKey), PostSelf(AuthFinish)];
      } else if !isServer {
        if idType == ExchangeFail {
          idType := Udid;
          phase := SyncDeviceId;
          SyncDevIdStateEnter(w);
          return;
        }
        if !w.startOk {
          CompleteAuthSession(HichainAuthFail);
          return;
        }
        calls := calls + [StartHichain];
      }
    }

    method ProcessDeviceIdMessage(m: Msg, w: World) returns (ok: bool)
      requires m.RecvDeviceId?
      modifies this
      ensures ok == (w.parseOk && SetExchange(old(State()), m.idType, w.lookup).ok) && calls == old(calls)
      ensures var t := SetExchange(old(State()), m.idType, w.lookup).idType;
        State() == if ok then Understood(old(State()), t, m.fastTag && w.fastKey)
                else if w.parseOk then old(State()).(idType := t) else old(State())
    {
      hide SetExchange;
      if !w.parseOk { return false; }
      ok := SetExchangeIdType(m.idType, w.lookup);
      if ok { isSupportFastAuth := m.fastTag && w.fastKey; }
    }

    /** The part of the device id handler behind reading the message. */
    method AnswerPeerDeviceId(w: World)
      modifies this
      ensures Did(AnswerDeviceId(old(State()), w), old(calls))
    {
      hide State, AfterDeviceId, Grows, KeepsId;
      if isServer {
        var ok := PostDeviceIdMessage(w);
        if !ok {
          CompleteAuthSession(SyncDevIdFail);
          return;
        }
      }
      TransactState(DeviceAuth);
      ProceedAfterDeviceId(w);
    }

    method HandleMsgRecvDeviceId(m: Msg, w: World)
      requires m.RecvDeviceId?
      modifies this
      ensures Did(HandleDeviceId(old(State()), m, w), old(calls))
    {
      hide AnswerDeviceId, SetExchange, Understood;
      var ok := ProcessDeviceIdMessage(m, w);
      if ok { AnswerPeerDeviceId(w); } else { CompleteAuthSession(SyncDevIdFail); }
    }

    method HandleMsgRecvAuthData(w: World)
      modifies this
      ensures Did(HandleAuthData(old(State()), w), old(calls))
    {
      if !w.processOk && !isAuthFinished { CompleteAuthSession(HichainProcessFail); }
    }

    /** PostDeviceInfoMessage where the link and the side call for it. */
    method TrySyncDeviceInfo(w: World) returns (ok: bool)
      modifies this
      ensures ok == SyncsInfo(old(State()), w)
      ensures var s := old(State());
        Did(Outcome(s, if ok && SendsInfoWithKey(s) then [SendDeviceInfo] else []), old(calls))
    {
      match link
      case OtherLink => ok := false;
      case Wifi =>
        ok := isServer || w.postOk;
        if ok && !isServer { calls := calls + [SendDeviceInfo]; }
      case _ =>
        ok := w.postOk;
        if ok { calls := calls + [SendDeviceInfo]; }
    }

    /** AuthManagerSetSessionKey. */
    method RecordKey()
      modifies this
      ensures Did(Outcome(old(State()).(keySaved := true), [SetSessionKey]), old(calls))
    {
      keySaved := true;
      calls := calls + [SetSessionKey];
    }

    /** Device info that came early goes back into the queue, and is forgotten either way. */
    method PostEarlyDeviceInfo(w: World)
      modifies this
      ensures var s := old(State()); var out := if s.early && w.requeueOk then [PostSelf(RecvDeviceInfo)] else [];
        Did(Outcome(s.(early := false), out), old(calls))
    {
      if hasDeviceInfoData {
        if w.requeueOk { calls := calls + [PostSelf(RecvDeviceInfo)]; }
        hasDeviceInfoData := false;
      }
    }

    method HandleMsgSaveSessionKey(w: World)
      modifies this
      ensures Did(HandleSaveKey(old(State()), w), old(calls))
    {
      hide State, Complete, HandleSaveKey, SyncsInfo, SendsInfoWithKey;
      SaveKeySteps(State(), w);
      if !w.keyFits { return; }
      RecordKey();
      var ok := TrySyncDeviceInfo(w);
      if !ok {
        CompleteAuthSession(SyncDevInfoFail);
        return;
      }
      PostEarlyDeviceInfo(w);
      TransactState(SyncDeviceInfo);
    }

    method HandleMsgRecvDevInfoEarly(w: World)
      modifies this
      ensures Did(HandleDeviceInfoEarly(old(State()), w), old(calls))
    {
      hasDeviceInfoData := false;
      if w.dupOk { hasDeviceInfoData := true; }
    }

    method HandleMsgAuthFinish()
      modifies this
      ensures Did(HandleAuthFinish(old(State())), old(calls))
    {
      isAuthFinished := true;
      TryFinishAuthSession();
    }

    method HandleMsgRecvDeviceInfo(w: World)
      modifies this
      ensures Did(HandleDeviceInfo(old(State()), w), old(calls))
    {
      hide PassAndFinish, Complete;
      if !w.infoOk {
        CompleteAuthSession(UnpackDevInfoFail);
        return;
      }
      isNodeInfoReceived := true;
      if link.Wifi? {
        isCloseAckReceived := true;
        if !isServer {
          PassThenFinish([], calls);
          return;
        }
        if !w.postOk {
          CompleteAuthSession(SyncDevInfoFail);
          return;
        }
        calls := calls + [SendDeviceInfo];
        PassThenFinish([SendDeviceInfo], old(calls));
        return;
      }
      if !w.postOk {
        CompleteAuthSession(SendFail);
        return;
      }
      calls := calls + [SendCloseAck];
      if isCloseAckReceived { PassThenFinish([SendCloseAck], old(calls)); }
    }

    method HandleMsgRecvCloseAck()
      modifies this
      ensures Did(HandleCloseAck(old(State())), old(calls))
    {
      isCloseAckReceived := true;
      if isNodeInfoReceived { SetAuthPassed(); }
      TryFinishAuthSession();
    }

    method HandleCommonMsg(m: Msg)
      modifies this
      ensures Did(HandleCommon(old(State()), m), old(calls))
    {
      match m
      case AuthTimeout => CompleteAuthSession(TimedOut);
      case DeviceNotTrusted => CompleteAuthSession(NotTrusted);
      case DeviceDisconnected =>
        if isNodeInfoReceived && isCloseAckReceived {
          CompleteAuthSession(Ok);
        } else {
          CompleteAuthSession(Disconnected);
          calls := calls + [CancelHichain];
        }
      case _ =>
    }

    method SyncDevIdStateProcess(m: Msg, w: World)
      requires phase.SyncDeviceId?
      modifies this
      ensures Did(Process(old(State()), m, w), old(calls))
    {
      hide HandleDeviceId, HandleCommon;
      if isDead { return; }
      if m.RecvDeviceId? { HandleMsgRecvDeviceId(m, w); } else { HandleCommonMsg(m); }
    }

    method DeviceAuthStateProcess(m: Msg, w: World)
      requires phase.DeviceAuth?
      modifies this
      ensures Did(Process(old(State()), m, w), old(calls))
    {
      hide HandleDeviceId, HandleCommon, HandleAuthData, HandleSaveKey, HandleDeviceInfoEarly,
        HandleAuthFinish, Complete;
      if isDead { return; }
      match m
      case RecvDeviceId(_, _) => HandleMsgRecvDeviceId(m, w);
      case RecvAuthData => HandleMsgRecvAuthData(w);
      case SaveSessionKey => HandleMsgSaveSessionKey(w);
      case AuthError => CompleteAuthSession(HichainAuthError);
      case RecvDeviceInfo => HandleMsgRecvDevInfoEarly(w);
      case AuthFinish => HandleMsgAuthFinish();
      case _ => HandleCommonMsg(m);
    }

    method SyncDevInfoStateProcess(m: Msg, w: World)
      requires phase.SyncDeviceInfo?
      modifies this
      ensures Did(Process(old(State()), m, w), old(calls))
    {
      hide HandleCommon, HandleAuthData, HandleDeviceInfo, HandleCloseAck, HandleAuthFinish;
      if isDead { return; }
      match m
      case RecvDeviceInfo => HandleMsgRecvDeviceInfo(w);
      case RecvCloseAck => HandleMsgRecvCloseAck();
      case RecvAuthData => HandleMsgRecvAuthData(w);
      case AuthFinish => HandleMsgAuthFinish();
      case _ => HandleCommonMsg(m);
    }

    /** The process function of the current state handles the message. */
    method Dispatch(m: Msg, w: World)
      modifies this
      ensures Did(Process(old(State()), m, w), old(calls))
    {
      hide Process;
      match phase
      case SyncDeviceId => SyncDevIdStateProcess(m, w);
      case DeviceAuth => DeviceAuthStateProcess(m, w);
      case SyncDeviceInfo => SyncDevInfoStateProcess(m, w);
    }

    /** One more message, after which everything that holds of whole histories still holds. */
    method ProcessMessage(m: Msg, w: World)
      requires Valid()
      modifies this
      ensures Valid() && start == old(start) && history == old(history) + [Input(m, w)] && old(calls) <= calls
      ensures old(isDead) ==> State() == old(State()) && calls == old(calls)
      ensures old(phase) == SyncDeviceInfo ==> phase == SyncDeviceInfo
      ensures !isServer ==> IdRank(idType) <= IdRank(old(idType))
      ensures BackEdges(start, history) <= 1
      ensures Decides(old(State()), Verdict(old(State()), Input(m, w)), Outcome(State(), calls[|old(calls)|..]))
      ensures Records(old(State()), Input(m, w), State())
    {
      hide Process, State, Sane, Completions, SucceedsRightly, Play, Started, Decides, Records, Verdict;
      VerdictIsExact(State(), Input(m, w));
      RecordsExactly(State(), Input(m, w));
      ghost var from, past, now := start, history, history + [Input(m, w)];
      Extends(from, past, m, w);
      Dispatch(m, w);
      start, history := from, now;
      PlayedSoFar(from, now);
    }
  }

  lemma StartedFrom(isServer: bool, link: Link, knowsPeer: bool, w: World)
    ensures var o := EnterSyncDeviceId(Create(isServer, link, knowsPeer), w);
      && Started(o) && o.s.phase == SyncDeviceId && !o.s.passed && (o.s.isDead <==> !isServer && !w.postOk)
      && (o.s.idType == NetworkId <==> !isServer && link.Ble? && knowsPeer)
  {
  }

  /** Saving the key, change by change. */
  lemma SaveKeySteps(s: Session, w: World)
    ensures var o, s1 := HandleSaveKey(s, w), s.(keySaved := true);
      if !w.keyFits then o == Outcome(s, [])
      else if !SyncsInfo(s1, w) then o == Complete(s1, SyncDevInfoFail).After([SetSessionKey])
      else
        o.s == s1.(early := false).(phase := SyncDeviceInfo)
        && o.out == [SetSessionKey] + (if SendsInfoWithKey(s1) then [SendDeviceInfo] else [])
                    + (if s1.early && w.requeueOk then [PostSelf(RecvDeviceInfo)] else [])
  {
  }

  /** What the run theorems say of a session with a given start and history. */
  lemma PlayedSoFar(start: Outcome, history: seq<Input>)
    requires Started(start)
    ensures var o := Play(start, history);
      && Sane(o.s) && Completions(o.out) == (if o.s.isDead then 1 else 0) && SucceedsRightly(o, history)
      && BackEdges(start, history) <= 1
  {
    PlaySane(start, history);
    CompletesAtMostOnce(start, history);
    SuccessIsEarned(start, history);
    BackEdgeAtMostOnce(start, history);
  }

  /** One message more, seen from the run theorems. */
  lemma Extends(start: Outcome, past: seq<Input>, m: Msg, w: World)
    ensures var p, i := Play(start, past), Input(m, w); var o := Process(p.s, m, w);
      && Play(start, past + [i]) == Outcome(o.s, p.out + o.out)
      && (p.s.isDead ==> o == Outcome(p.s, []))
      && (p.s.phase == SyncDeviceInfo ==> o.s.phase == SyncDeviceInfo)
      && (!p.s.isServer ==> IdRank(o.s.idType) <= IdRank(p.s.idType))
  {
    hide Process;
    var i := Input(m, w);
    assert (past + [i])[..|past|] == past;
    if Play(start, past).s.isDead { DeadIsFrozen(start, past, [i]); DeadProcess(Play(start, past).s, m, w); }
    if Play(start, past).s.phase == SyncDeviceInfo { LastStateIsFinal(start, past, [i]); }
    IdTypeDescends(start, past, [i]);
  }

  lemma DeadProcess(s: Session, m: Msg, w: World)
    requires s.isDead
    ensures Process(s, m, w) == Outcome(s, [])
  {
  }
}

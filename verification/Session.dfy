/**
 One authentication session: the three-state machine of auth_session_fsm.c, with the id-type
 negotiation of auth_session_message.c. Handlers are functions from a session, a message and the
 answers of the outside world to the next session and the effects the handler has, in order.
 */
module Session {

  datatype Link = Wifi | Br | Ble | P2p | EnhancedP2p | OtherLink

  datatype Phase = SyncDeviceId | DeviceAuth | SyncDeviceInfo

  datatype IdType = Udid | NetworkId | ExchangeFail

  /** The exchange-id-type field of a received device id: absent, one of the three, or another number. */
  datatype WireIdType = Absent | Given(t: IdType) | Unknown

  datatype Result =
    | Ok | SyncDevIdFail | HichainAuthFail | HichainProcessFail | HichainAuthError
    | SyncDevInfoFail | UnpackDevInfoFail | SendFail | TimedOut | NotTrusted | Disconnected

  datatype Msg =
    | RecvDeviceId(idType: WireIdType, fastTag: bool)
    | RecvAuthData
    | SaveSessionKey
    | AuthError
    | RecvDeviceInfo
    | RecvCloseAck
    | AuthFinish
    | AuthTimeout
    | DeviceNotTrusted
    | DeviceDisconnected

  /** What a handler does beside changing the session. Sends appear only when they succeed. */
  datatype Effect =
    | SendDeviceId(idType: IdType, fastTag: bool)
    | SendDeviceInfo
    | SendCloseAck
    | StartHichain
    | CancelHichain
    | SetSessionKey
    | PostSelf(msg: Msg)
    | AuthPassed
    | Completed(result: Result)

  /** How GetPeerUdidByNetworkId and the copy after it turn out. */
  datatype Lookup = Found | NotFound | CopyFailed

  /** The answers of everything a handler calls out to. */
  datatype World = World(
    parseOk: bool,       // the device id message parses
    lookup: Lookup,      // the peer's network id is known
    fastKey: bool,       // UnpackFastAuth accepts the tag it found
    packFast: bool,      // PackFastAuth finds a key to pack
    postOk: bool,        // the message goes out
    recoverOk: bool,     // RecoveryDeviceKey succeeds
    startOk: bool,       // HichainStartAuth succeeds
    processOk: bool,     // HichainProcessData succeeds
    keyFits: bool,       // the session key fits its buffer
    infoOk: bool,        // the device info decrypts and unpacks
    dupOk: bool,         // early device info can be copied
    requeueOk: bool)     // early device info can be posted again

  /** AuthFsm with its AuthSessionInfo; `keySaved` and `passed` record calls into the auth manager. */
  datatype Session = Session(
    isServer: bool,
    link: Link,
    phase: Phase,
    idType: IdType,
    fast: bool,            // isSupportFastAuth
    early: bool,           // deviceInfoData != NULL
    nodeInfo: bool,        // isNodeInfoReceived
    closeAck: bool,        // isCloseAckReceived
    authFinished: bool,    // isAuthFinished
    isDead: bool,
    keySaved: bool,        // AuthManagerSetSessionKey was called
    passed: bool)          // AuthManagerSetAuthPassed was called

  datatype Outcome = Outcome(s: Session, out: seq<Effect>)
  {
    /** This outcome, after the given effects. */
    function After(first: seq<Effect>): Outcome { Outcome(s, first + out) }

    function Then(more: seq<Effect>): Outcome { Outcome(s, out + more) }
  }

  /** CreateAuthFsm. Only a Bluetooth low energy client may start from a network id. */
  function Create(isServer: bool, link: Link, knowsPeer: bool): Session
  {
    Session(isServer, link, SyncDeviceId,
            if !isServer && link.Ble? && knowsPeer then NetworkId else Udid,
            false, false, false, false, false, false, false, false)
  }

  /** What no handler does: change sides or links, or take back what was recorded. */
  predicate Grows(s: Session, s': Session)
  {
    && s'.isServer == s.isServer && s'.link == s.link
    && (s.nodeInfo ==> s'.nodeInfo) && (s.closeAck ==> s'.closeAck) && (s.authFinished ==> s'.authFinished)
    && (s.isDead ==> s'.isDead) && (s.keySaved ==> s'.keySaved) && (s.passed ==> s'.passed)
  }

  /** The id negotiation is untouched, and the phase moves only to the last one. */
  predicate KeepsId(s: Session, s': Session)
  {
    s'.idType == s.idType && s'.fast == s.fast && (s'.phase == s.phase || s'.phase == SyncDeviceInfo)
  }

  function Complete(s: Session, r: Result): (o: Outcome)
    ensures Grows(s, o.s) && o.s.isDead && KeepsId(s, o.s)
  {
    Outcome(s.(isDead := true), [Completed(r)])
  }

  function TryFinish(s: Session): (o: Outcome)
    ensures Grows(s, o.s) && KeepsId(s, o.s)
  {
    if s.nodeInfo && s.closeAck && s.authFinished then Complete(s, Ok) else Outcome(s, [])
  }

  /** AuthManagerSetAuthPassed, then TryFinishAuthSession. */
  function PassAndFinish(s: Session, first: seq<Effect>): (o: Outcome)
    ensures Grows(s, o.s) && KeepsId(s, o.s) && o.s.passed
  {
    TryFinish(s.(passed := true)).After(first + [AuthPassed])
  }

  /** The answer of PostDeviceIdMessage; packing the fast-auth tag may withdraw the fast-auth flag. */
  function PostDeviceId(s: Session, w: World): (o: Outcome)
    ensures Grows(s, o.s)
  {
    if w.postOk then Outcome(Packed(s, w), [DeviceIdOf(Packed(s, w), w)]) else Complete(Packed(s, w), SyncDevIdFail)
  }

  /** PackFastAuth: without a key to pack, fast auth is off. */
  function Packed(s: Session, w: World): (p: Session)
    ensures Grows(s, p)
  {
    s.(fast := s.fast && w.packFast)
  }

  /** The device id message of a session that has packed its fast-auth tag. */
  function DeviceIdOf(s: Session, w: World): Effect
  {
    SendDeviceId(s.idType, if s.isServer then s.fast else w.packFast)
  }

  /** Entering the first state: only the client speaks. */
  function EnterSyncDeviceId(s: Session, w: World): (o: Outcome)
    ensures Grows(s, o.s)
  {
    if s.isServer then Outcome(s, []) else PostDeviceId(s, w)
  }

  datatype Exchange = Exchange(ok: bool, idType: IdType)

  function VerifyExchange(idType: IdType, given: WireIdType, lookup: Lookup): Exchange
  {
    if given != Given(NetworkId) then Exchange(true, idType)
    else match lookup
      case Found => Exchange(true, NetworkId)
      case NotFound => Exchange(true, ExchangeFail)
      case CopyFailed => Exchange(false, ExchangeFail)
  }

  /** SetExchangeIdTypeAndValue. */
  function SetExchange(s: Session, given: WireIdType, lookup: Lookup): Exchange
  {
    if given.Absent? || given == Given(Udid) then Exchange(true, Udid)
    else if s.isServer then VerifyExchange(s.idType, given, lookup)
    else if s.idType == NetworkId then
      VerifyExchange(if given == Given(ExchangeFail) then ExchangeFail else s.idType, given, lookup)
    else Exchange(true, s.idType)
  }

  function HandleDeviceId(s: Session, m: Msg, w: World): (o: Outcome)
    requires m.RecvDeviceId?
    ensures Grows(s, o.s)
  {
    var x := SetExchange(s, m.idType, w.lookup);
    if !w.parseOk then Complete(s, SyncDevIdFail)
    else if !x.ok then Complete(s.(idType := x.idType), SyncDevIdFail)
    else AnswerDeviceId(Understood(s, x.idType, m.fastTag && w.fastKey), w)
  }

  /** The session once a device id has been read. */
  function Understood(s: Session, idType: IdType, fast: bool): (u: Session)
    ensures Grows(s, u) && u.idType == idType && u.fast == fast
    ensures u.phase == s.phase && u.isDead == s.isDead
    ensures u.early == s.early && u.keySaved == s.keySaved && u.passed == s.passed
    ensures u.nodeInfo == s.nodeInfo && u.closeAck == s.closeAck && u.authFinished == s.authFinished
  {
    s.(idType := idType, fast := fast)
  }

  /** The server answers with its own device id before either side goes on. */
  function AnswerDeviceId(s: Session, w: World): (o: Outcome)
    ensures Grows(s, o.s)
  {
    if s.isServer then
      var sent := PostDeviceId(s, w);
      if !w.postOk then sent else AfterDeviceId(sent.s.(phase := DeviceAuth), w).After(sent.out)
    else AfterDeviceId(s.(phase := DeviceAuth), w)
  }

  /** Fast auth, the back edge to the first state, or the start of Hichain. */
  function AfterDeviceId(s: Session, w: World): (o: Outcome)
    ensures Grows(s, o.s)
  {
    if s.fast then
      if w.recoverOk then Outcome(s, [PostSelf(SaveSessionKey), PostSelf(AuthFinish)])
      else Complete(s, SyncDevIdFail)
    else if s.isServer then Outcome(s, [])
    else if s.idType == ExchangeFail then EnterSyncDeviceId(s.(idType := Udid, phase := SyncDeviceId), w)
    else if w.startOk then Outcome(s, [StartHichain])
    else Complete(s, HichainAuthFail)
  }

  function HandleAuthData(s: Session, w: World): (o: Outcome)
    ensures Grows(s, o.s) && KeepsId(s, o.s)
  {
    if !w.processOk && !s.authFinished then Complete(s, HichainProcessFail) else Outcome(s, [])
  }

  /** TrySyncDeviceInfo: device info goes out with the key, except from a WiFi server. */
  predicate SendsInfoWithKey(s: Session)
  {
    !(s.link.Wifi? && s.isServer)
  }

  /** TrySyncDeviceInfo succeeds. */
  predicate SyncsInfo(s: Session, w: World)
  {
    !s.link.OtherLink? && (SendsInfoWithKey(s) ==> w.postOk)
  }

  function HandleSaveKey(s: Session, w: World): (o: Outcome)
    ensures Grows(s, o.s) && KeepsId(s, o.s)
  {
    if !w.keyFits then Outcome(s, [])
    else if SyncsInfo(s, w) then
      Outcome(s.(keySaved := true, early := false, phase := SyncDeviceInfo), KeySavedEffects(s, w))
    else Complete(s.(keySaved := true), SyncDevInfoFail).After([SetSessionKey])
  }

  /** Device info goes out if it is this side's turn, and device info that came early is posted again. */
  function KeySavedEffects(s: Session, w: World): seq<Effect>
  {
    [SetSessionKey]
    + (if SendsInfoWithKey(s) then [SendDeviceInfo] else [])
    + (if s.early && w.requeueOk then [PostSelf(RecvDeviceInfo)] else [])
  }

  function HandleDeviceInfoEarly(s: Session, w: World): (o: Outcome)
    ensures Grows(s, o.s) && KeepsId(s, o.s)
  {
    Outcome(s.(early := w.dupOk), [])
  }

  function HandleAuthFinish(s: Session): (o: Outcome)
    ensures Grows(s, o.s) && KeepsId(s, o.s)
  {
    TryFinish(s.(authFinished := true))
  }

  function HandleDeviceInfo(s: Session, w: World): (o: Outcome)
    ensures Grows(s, o.s) && KeepsId(s, o.s)
  {
    if !w.infoOk then Complete(s, UnpackDevInfoFail)
    else if s.link.Wifi? then AcceptInfoWifi(s.(nodeInfo := true, closeAck := true), w)
    else AcceptInfo(s.(nodeInfo := true), w)
  }

  /** WiFi: no close ack is exchanged, and the server answers with its own device info. */
  function AcceptInfoWifi(s: Session, w: World): (o: Outcome)
    ensures Grows(s, o.s) && KeepsId(s, o.s)
  {
    if !s.isServer then PassAndFinish(s, [])
    else if w.postOk then PassAndFinish(s, [SendDeviceInfo])
    else Complete(s, SyncDevInfoFail)
  }

  function AcceptInfo(s: Session, w: World): (o: Outcome)
    ensures Grows(s, o.s) && KeepsId(s, o.s)
  {
    if !w.postOk then Complete(s, SendFail)
    else if s.closeAck then PassAndFinish(s, [SendCloseAck])
    else Outcome(s, [SendCloseAck])
  }

  function HandleCloseAck(s: Session): (o: Outcome)
    ensures Grows(s, o.s) && KeepsId(s, o.s)
  {
    var s1 := s.(closeAck := true);
    if s1.nodeInfo then PassAndFinish(s1, []) else TryFinish(s1)
  }

  function HandleCommon(s: Session, m: Msg): (o: Outcome)
    ensures Grows(s, o.s) && KeepsId(s, o.s)
  {
    match m
    case AuthTimeout => Complete(s, TimedOut)
    case DeviceNotTrusted => Complete(s, NotTrusted)
    case DeviceDisconnected =>
      if s.nodeInfo && s.closeAck then Complete(s, Ok)
      else Complete(s, Disconnected).Then([CancelHichain])
    case _ => Outcome(s, [])
  }

  /** The three process functions behind the dead-session check. */
  function Process(s: Session, m: Msg, w: World): (o: Outcome)
    ensures Grows(s, o.s)
  {
    if s.isDead then Outcome(s, [])
    else match s.phase
      case SyncDeviceId =>
        (match m
         case RecvDeviceId(_, _) => HandleDeviceId(s, m, w)
         case _ => HandleCommon(s, m))
      case DeviceAuth =>
        (match m
         case RecvDeviceId(_, _) => HandleDeviceId(s, m, w)
         case RecvAuthData => HandleAuthData(s, w)
         case SaveSessionKey => HandleSaveKey(s, w)
         case AuthError => Complete(s, HichainAuthError)
         case RecvDeviceInfo => HandleDeviceInfoEarly(s, w)
         case AuthFinish => HandleAuthFinish(s)
         case _ => HandleCommon(s, m))
      case SyncDeviceInfo =>
        (match m
         case RecvDeviceInfo => HandleDeviceInfo(s, w)
         case RecvCloseAck => HandleCloseAck(s)
         case RecvAuthData => HandleAuthData(s, w)
         case AuthFinish => HandleAuthFinish(s)
         case _ => HandleCommon(s, m))
  }
}

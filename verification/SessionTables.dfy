/** The list of sessions: found by connection, started by a first device id, ended and destroyed. */
module SessionTables {
  import opened Options
  import opened ConnIds
  import S = Session

  datatype Entry = Entry(authSeq: int, connId: ConnId, isServer: bool, idType: S.IdType, isDead: bool)

  predicate Matches(e: Entry, connId: ConnId, isServer: bool)
  {
    e.connId == connId && e.isServer == isServer
  }

  /** A session is of use to a lookup: it matches and lives. */
  predicate LiveMatch(e: Entry, connId: ConnId, isServer: bool)
  {
    Matches(e, connId, isServer) && !e.isDead
  }

  /** The first session that matches, if it lives. The search stops there even if it is dead. */
  function ByConnId(list: seq<Entry>, connId: ConnId, isServer: bool): (k: Option<nat>)
    ensures k.Some? ==> k.value < |list| && LiveMatch(list[k.value], connId, isServer)
  {
    if list == [] then None
    else if Matches(list[0], connId, isServer) then if list[0].isDead then None else Some(0)
    else match ByConnId(list[1..], connId, isServer) case None => None case Some(k) => Some(k + 1)
  }

  function BySeq(list: seq<Entry>, authSeq: int): (k: Option<nat>)
    ensures k.Some? ==> k.value < |list| && list[k.value].authSeq == authSeq && !list[k.value].isDead
  {
    if list == [] then None
    else if list[0].authSeq == authSeq then if list[0].isDead then None else Some(0)
    else match BySeq(list[1..], authSeq) case None => None case Some(k) => Some(k + 1)
  }

  /** What happens to a received device id. */
  datatype Dispatch = Ignored | Deferred | StartFailed | NoSession | PostedTo(k: nat)

  datatype Outcome = Outcome(list: seq<Entry>, d: Dispatch)

  function Post(list: seq<Entry>, authSeq: int): Outcome
  {
    match BySeq(list, authSeq) case None => Outcome(list, NoSession) case Some(k) => Outcome(list, PostedTo(k))
  }

  /** HandleDeviceIdData. A device id from a client starts a session unless one lives on its connection. */
  function HandleDeviceId(list: seq<Entry>, connId: ConnId, authSeq: int, fromClient: bool, asServer: bool,
                          startOk: bool): Outcome
  {
    if !fromClient then Post(list, authSeq)
    else if !asServer then Outcome(list, Ignored)
    else match ByConnId(list, connId, true)
      case Some(k) => if list[k].idType == S.Udid then Outcome(list, Deferred) else Post(list, authSeq)
      case None =>
        if startOk then Post([Entry(authSeq, connId, true, S.Udid, false)] + list, authSeq)
        else Outcome(list, StartFailed)
  }

  /** A session that was found, if the message can be posted to it. */
  function IfPosted(k: Option<nat>, ok: bool): Option<nat>
  {
    if ok then k else None
  }

  /**
   HandleDeviceInfoData: a flush packet is for no session; anything else goes by sequence number or, if that
   finds no session or cannot be posted, by connection and side.
   */
  function RouteInfo(list: seq<Entry>, connId: ConnId, authSeq: int, fromServer: bool, flush: bool, seqOk: bool,
                     connOk: bool): Option<nat>
  {
    if flush then None
    else if IfPosted(BySeq(list, authSeq), seqOk).Some? then BySeq(list, authSeq)
    else IfPosted(ByConnId(list, connId, !fromServer), connOk)
  }

  /** HandleCloseAckData: sequence number zero stands for the connection. */
  function RouteAck(list: seq<Entry>, connId: ConnId, authSeq: int, fromServer: bool, postOk: bool): Option<nat>
  {
    IfPosted(if authSeq != 0 then BySeq(list, authSeq) else ByConnId(list, connId, !fromServer), postOk)
  }

  /** CompleteAuthSession: a WiFi session that fails first loses its socket number. */
  function Ended(e: Entry, failed: bool): Entry
  {
    if failed && GetConnType(e.connId) as int == AUTH_LINK_TYPE_WIFI
    then e.(connId := UpdateFd(e.connId, AUTH_INVALID_FD as Int32), isDead := true)
    else e.(isDead := true)
  }

  // ------------------------------------------------------ invariant

  /** No message arrives on a closed socket. */
  predicate Open(connId: ConnId)
  {
    !(GetConnType(connId) as int == AUTH_LINK_TYPE_WIFI && GetFd(connId) as int == AUTH_INVALID_FD)
  }

  /** A live server session hides no other, and is hidden by none: it is the first match of its connection. */
  predicate LiveIsFirst(list: seq<Entry>)
  {
    forall i, j :: 0 <= i < j < |list| && list[j].isServer && !list[j].isDead ==>
      !Matches(list[i], list[j].connId, true)
  }

  predicate Inv(list: seq<Entry>)
  {
    LiveIsFirst(list) && forall i :: 0 <= i < |list| && list[i].isServer && !list[i].isDead ==> Open(list[i].connId)
  }

  /** The lookup that stops at a dead match misses no live server session. */
  lemma {:induction false} LookupIsComplete(list: seq<Entry>, connId: ConnId, k: nat)
    requires LiveIsFirst(list) && k < |list| && LiveMatch(list[k], connId, true)
    ensures ByConnId(list, connId, true) == Some(k)
  {
    if k > 0 {
      assert !Matches(list[0], connId, true);
      LookupIsComplete(list[1..], connId, k - 1);
    }
  }

  lemma AtMostOneLive(list: seq<Entry>, connId: ConnId, i: nat, j: nat)
    requires LiveIsFirst(list) && i < |list| && j < |list|
    requires LiveMatch(list[i], connId, true) && LiveMatch(list[j], connId, true)
    ensures i == j
  {
    LookupIsComplete(list, connId, i);
    LookupIsComplete(list, connId, j);
  }

  lemma StartKeepsInv(list: seq<Entry>, connId: ConnId, authSeq: int, isServer: bool)
    requires Inv(list) && (isServer ==> Open(connId) && ByConnId(list, connId, true).None?)
    ensures Inv([Entry(authSeq, connId, isServer, S.Udid, false)] + list)
  {
    var e := Entry(authSeq, connId, isServer, S.Udid, false);
    var now := [e] + list;
    forall i, j | 0 <= i < j < |now| && now[j].isServer && !now[j].isDead
      ensures !Matches(now[i], now[j].connId, true)
    {
      if i == 0 && isServer && now[j].connId == connId { LookupIsComplete(list, connId, j - 1); }
      assert now[j] == list[j - 1] && (i > 0 ==> now[i] == list[i - 1]);
    }
  }

  lemma EndKeepsInv(list: seq<Entry>, k: nat, failed: bool)
    requires Inv(list) && k < |list|
    ensures Inv(list[k := Ended(list[k], failed)])
  {
    UpdateFdKeepsType(list[k].connId, AUTH_INVALID_FD as Int32);
  }

  lemma DestroyKeepsInv(list: seq<Entry>, k: nat)
    requires Inv(list) && k < |list|
    ensures Inv(list[..k] + list[k + 1..])
  {
    var now := list[..k] + list[k + 1..];
    forall i, j | 0 <= i < j < |now| && now[j].isServer && !now[j].isDead
      ensures !Matches(now[i], now[j].connId, true)
    {
      var i', j' := if i < k then i else i + 1, if j < k then j else j + 1;
      assert now[i] == list[i'] && now[j] == list[j'] && i' < j';
    }
  }

  // ------------------------------------------------------ the list over time

  class SessionTable {
    var sessions: seq<Entry>

    constructor ()
      ensures sessions == [] && Inv(sessions)
    {
      sessions := [];
    }

    method GetAuthFsmByConnId(connId: ConnId, isServer: bool) returns (k: Option<nat>)
      ensures k == ByConnId(sessions, connId, isServer)
    {
      var i := 0;
      while i < |sessions|
        invariant i <= |sessions|
        invariant ByConnId(sessions, connId, isServer) == Shift(ByConnId(sessions[i..], connId, isServer), i)
      {
        assert sessions[i..][1..] == sessions[i + 1..];
        if Matches(sessions[i], connId, isServer) {
          if sessions[i].isDead { return None; }
          return Some(i);
        }
        i := i + 1;
      }
      return None;
    }

    method GetAuthFsmByAuthSeq(authSeq: int) returns (k: Option<nat>)
      ensures k == BySeq(sessions, authSeq)
    {
      var i := 0;
      while i < |sessions|
        invariant i <= |sessions|
        invariant BySeq(sessions, authSeq) == Shift(BySeq(sessions[i..], authSeq), i)
      {
        assert sessions[i..][1..] == sessions[i + 1..];
        if sessions[i].authSeq == authSeq {
          if sessions[i].isDead { return None; }
          return Some(i);
        }
        i := i + 1;
      }
      return None;
    }

    /** CreateAuthFsm, called for a client session by a connect result and for a server session below. */
    method StartAuth(authSeq: int, connId: ConnId, isServer: bool, startOk: bool)
      requires Inv(sessions) && (isServer ==> Open(connId) && ByConnId(sessions, connId, true).None?)
      modifies this
      ensures Inv(sessions)
      ensures sessions == (if startOk then [Entry(authSeq, connId, isServer, S.Udid, false)] else []) + old(sessions)
    {
      StartKeepsInv(sessions, connId, authSeq, isServer);
      if startOk { sessions := [Entry(authSeq, connId, isServer, S.Udid, false)] + sessions; }
    }

    method PostDeviceId(authSeq: int) returns (d: Dispatch)
      ensures Outcome(sessions, d) == Post(sessions, authSeq)
    {
      var k := GetAuthFsmByAuthSeq(authSeq);
      match k
      case None => d := NoSession;
      case Some(i) => d := PostedTo(i);
    }

    method HandleDeviceIdData(connId: ConnId, authSeq: int, fromClient: bool, asServer: bool, startOk: bool)
      returns (d: Dispatch)
      requires Inv(sessions) && Open(connId)
      modifies this
      ensures Inv(sessions)
      ensures Outcome(sessions, d) == HandleDeviceId(old(sessions), connId, authSeq, fromClient, asServer, startOk)
      ensures fromClient && asServer ==>
        forall k: nat :: k < |old(sessions)| && LiveMatch(old(sessions)[k], connId, true) ==>
          FollowsUp(old(sessions), k, authSeq, Outcome(sessions, d))
    {
      forall k: nat | k < |sessions| && LiveMatch(sessions[k], connId, true)
        ensures FollowsUp(sessions, k, authSeq, HandleDeviceId(sessions, connId, authSeq, true, true, startOk))
      {
        DispatchToLive(sessions, connId, authSeq, startOk, k);
      }
      if fromClient {
        if !asServer { return Ignored; }
        var k := GetAuthFsmByConnId(connId, true);
        if k.Some? && sessions[k.value].idType != S.Udid {
          d := PostDeviceId(authSeq);
          return;
        }
        if k.Some? { return Deferred; }
        StartAuth(authSeq, connId, true, startOk);
        if !startOk { return StartFailed; }
      }
      d := PostDeviceId(authSeq);
    }

    method HandleDeviceInfoData(connId: ConnId, authSeq: int, fromServer: bool, flush: bool, seqOk: bool, connOk: bool)
      returns (k: Option<nat>)
      ensures k == RouteInfo(sessions, connId, authSeq, fromServer, flush, seqOk, connOk)
    {
      if flush { return None; }
      k := GetAuthFsmByAuthSeq(authSeq);
      if k.None? || !seqOk {
        k := GetAuthFsmByConnId(connId, !fromServer);
        if !connOk { k := None; }
      }
    }

    method HandleCloseAckData(connId: ConnId, authSeq: int, fromServer: bool, postOk: bool) returns (k: Option<nat>)
      ensures k == RouteAck(sessions, connId, authSeq, fromServer, postOk)
    {
      if authSeq != 0 {
        k := GetAuthFsmByAuthSeq(authSeq);
      } else {
        k := GetAuthFsmByConnId(connId, !fromServer);
      }
      if !postOk { k := None; }
    }

    /** A session reads a device id, and its id type changes. */
    method Negotiate(k: nat, idType: S.IdType)
      requires Inv(sessions) && k < |sessions|
      modifies this
      ensures Inv(sessions) && sessions == old(sessions)[k := old(sessions)[k].(idType := idType)]
    {
      sessions := sessions[k := sessions[k].(idType := idType)];
    }

    method CompleteAuthSession(k: nat, failed: bool)
      requires Inv(sessions) && k < |sessions|
      modifies this
      ensures Inv(sessions) && sessions == old(sessions)[k := Ended(old(sessions)[k], failed)]
    {
      EndKeepsInv(sessions, k, failed);
      sessions := sessions[k := Ended(sessions[k], failed)];
    }

    method DestroyAuthFsm(k: nat)
      requires Inv(sessions) && k < |sessions|
      modifies this
      ensures Inv(sessions) && sessions == old(sessions)[..k] + old(sessions)[k + 1..]
    {
      DestroyKeepsInv(sessions, k);
      sessions := sessions[..k] + sessions[k + 1..];
    }
  }

  function Shift(k: Option<nat>, n: nat): Option<nat>
  {
    match k case None => None case Some(i) => Some(i + n)
  }

  /** Everything that changes the list, one dispatched message or event at a time. */
  datatype Event =
    | DeviceId(connId: ConnId, authSeq: int, fromClient: bool, asServer: bool, startOk: bool)
    | Connected(connId: ConnId, authSeq: int)
    | Negotiated(k: nat, idType: S.IdType)
    | Completed(k: nat, failed: bool)
    | Destroyed(k: nat)

  predicate Possible(list: seq<Entry>, e: Event)
  {
    match e
    case DeviceId(connId, _, _, _, _) => Open(connId)
    case Connected(_, _) => true
    case Negotiated(k, _) => k < |list|
    case Completed(k, _) => k < |list|
    case Destroyed(k) => k < |list|
  }

  function Next(list: seq<Entry>, e: Event): seq<Entry>
    requires Possible(list, e)
  {
    match e
    case DeviceId(connId, authSeq, fromClient, asServer, startOk) =>
      HandleDeviceId(list, connId, authSeq, fromClient, asServer, startOk).list
    case Connected(connId, authSeq) => [Entry(authSeq, connId, false, S.Udid, false)] + list
    case Negotiated(k, idType) => list[k := list[k].(idType := idType)]
    case Completed(k, failed) => list[k := Ended(list[k], failed)]
    case Destroyed(k) => list[..k] + list[k + 1..]
  }

  /** The lists of a run, from the empty one. */
  predicate IsRun(ls: seq<seq<Entry>>, es: seq<Event>)
  {
    && |ls| == |es| + 1 && ls[0] == []
    && forall j: nat :: j < |es| ==> Possible(ls[j], es[j]) && ls[j + 1] == Next(ls[j], es[j])
  }

  lemma NextKeepsInv(list: seq<Entry>, e: Event)
    requires Inv(list) && Possible(list, e)
    ensures Inv(Next(list, e))
  {
    match e
    case DeviceId(connId, authSeq, fromClient, asServer, startOk) =>
      if ByConnId(list, connId, true).None? { StartKeepsInv(list, connId, authSeq, true); }
    case Connected(connId, authSeq) => StartKeepsInv(list, connId, authSeq, false);
    case Negotiated(_, _) =>
    case Completed(k, failed) => EndKeepsInv(list, k, failed);
    case Destroyed(k) => DestroyKeepsInv(list, k);
  }

  lemma {:induction false} RunKeepsInv(ls: seq<seq<Entry>>, es: seq<Event>, j: nat)
    requires IsRun(ls, es) && j < |ls|
    ensures Inv(ls[j])
  {
    hide Next, Inv, Possible;
    if j == 0 {
      EmptyInv();
    } else {
      RunKeepsInv(ls, es, j - 1);
      assert ls[j - 1 + 1] == Next(ls[j - 1], es[j - 1]);
      NextKeepsInv(ls[j - 1], es[j - 1]);
    }
  }

  lemma EmptyInv()
    ensures Inv([])
  {
  }

  /**
   In every reachable list the lookup by connection answers with a session exactly if a server session
   lives on that connection, and there is only that one.
   */
  lemma LookupFindsTheLiveOne(ls: seq<seq<Entry>>, es: seq<Event>, j: nat, connId: ConnId, k: nat)
    requires IsRun(ls, es) && j < |ls| && k < |ls[j]|
    ensures LiveMatch(ls[j][k], connId, true) <==> ByConnId(ls[j], connId, true) == Some(k)
  {
    RunKeepsInv(ls, es, j);
    if LiveMatch(ls[j][k], connId, true) { LookupIsComplete(ls[j], connId, k); }
  }

  /**
   Device info that is no flush packet, and close acks, from a client that names no session, reach a session
   exactly if they can be posted and it is the live server session of their connection.
   */
  lemma UnnamedMessagesReachTheServer(ls: seq<seq<Entry>>, es: seq<Event>, j: nat, connId: ConnId, authSeq: int,
                                      seqOk: bool, postOk: bool, k: nat)
    requires IsRun(ls, es) && j < |ls| && k < |ls[j]|
    ensures BySeq(ls[j], authSeq).None? || !seqOk ==>
      (RouteInfo(ls[j], connId, authSeq, false, false, seqOk, postOk) == Some(k)
       <==> postOk && LiveMatch(ls[j][k], connId, true))
    ensures RouteAck(ls[j], connId, 0, false, postOk) == Some(k) <==> postOk && LiveMatch(ls[j][k], connId, true)
  {
    hide ByConnId, BySeq;
    LookupFindsTheLiveOne(ls, es, j, connId, k);
  }

  /**
   A client's device id with no server session alive on its connection starts one and is posted to it. If that
   fails, or this device is no server, the list stays as it is.
   */
  lemma StartedSessionGetsItsDeviceId(list: seq<Entry>, connId: ConnId, authSeq: int)
    requires ByConnId(list, connId, true).None?
    ensures HandleDeviceId(list, connId, authSeq, true, true, false) == Outcome(list, StartFailed)
    ensures forall ok :: HandleDeviceId(list, connId, authSeq, true, false, ok) == Outcome(list, Ignored)
    ensures var o := HandleDeviceId(list, connId, authSeq, true, true, true);
      o.d == PostedTo(0) && o.list[1..] == list && LiveMatch(o.list[0], connId, true) && o.list[0].authSeq == authSeq
      && o.list[0].idType == S.Udid
  {
  }

  /** Both lookups answer with a session exactly if it lives and no session before it, dead or alive, has its key. */
  lemma {:induction false} LookupsAreExact(list: seq<Entry>, connId: ConnId, isServer: bool, authSeq: int, k: nat)
    ensures BySeq(list, authSeq) == Some(k) <==>
      && k < |list| && list[k].authSeq == authSeq && !list[k].isDead
      && forall i :: 0 <= i < k ==> list[i].authSeq != authSeq
    ensures ByConnId(list, connId, isServer) == Some(k) <==>
      && k < |list| && LiveMatch(list[k], connId, isServer)
      && forall i :: 0 <= i < k ==> !Matches(list[i], connId, isServer)
  {
    if list != [] && k > 0 {
      LookupsAreExact(list[1..], connId, isServer, authSeq, k - 1);
      assert k < |list| ==> forall i :: 0 < i < k ==> list[1..][i - 1] == list[i];
    }
  }

  /** The session k lives and is the only one that carries the sequence number. */
  predicate Carries(list: seq<Entry>, authSeq: int, k: nat)
  {
    && k < |list| && list[k].authSeq == authSeq && !list[k].isDead
    && forall i :: 0 <= i < |list| && list[i].authSeq == authSeq ==> i == k
  }

  lemma {:induction false} SeqFindsItsSession(list: seq<Entry>, authSeq: int, k: nat)
    requires Carries(list, authSeq, k)
    ensures BySeq(list, authSeq) == Some(k)
  {
    if k > 0 {
      forall i | 0 <= i < |list[1..]| && list[1..][i].authSeq == authSeq ensures i == k - 1 {
        assert list[i + 1].authSeq == authSeq;
      }
      SeqFindsItsSession(list[1..], authSeq, k - 1);
    }
  }

  /** With the session k alive on its connection, a device id starts none; it is put off, or posted to k by number. */
  predicate FollowsUp(list: seq<Entry>, k: nat, authSeq: int, o: Outcome)
    requires k < |list|
  {
    && o.list == list
    && if list[k].idType == S.Udid then o.d == Deferred else Carries(list, authSeq, k) ==> o.d == PostedTo(k)
  }

  lemma DispatchToLive(list: seq<Entry>, connId: ConnId, authSeq: int, startOk: bool, k: nat)
    requires LiveIsFirst(list) && k < |list| && LiveMatch(list[k], connId, true)
    ensures FollowsUp(list, k, authSeq, HandleDeviceId(list, connId, authSeq, true, true, startOk))
  {
    hide ByConnId, BySeq;
    LookupIsComplete(list, connId, k);
    if Carries(list, authSeq, k) { SeqFindsItsSession(list, authSeq, k); }
  }

  /**
   A client's device id, while a server session k lives on its connection: it is posted to k, which carries its
   number, exactly if the id type of k is no longer the udid, and put off otherwise. No session is started.
   */
  lemma FollowUpDeviceId(ls: seq<seq<Entry>>, es: seq<Event>, j: nat, connId: ConnId, authSeq: int, startOk: bool,
                         k: nat)
    requires IsRun(ls, es) && j < |ls| && Carries(ls[j], authSeq, k) && LiveMatch(ls[j][k], connId, true)
    ensures HandleDeviceId(ls[j], connId, authSeq, true, true, startOk)
         == Outcome(ls[j], if ls[j][k].idType == S.Udid then Deferred else PostedTo(k))
  {
    RunKeepsInv(ls, es, j);
    DispatchToLive(ls[j], connId, authSeq, startOk, k);
  }

  /** While a udid session lives on its connection, a client's device id reaches no session, whatever its number. */
  lemma UdidSessionDefers(ls: seq<seq<Entry>>, es: seq<Event>, j: nat, connId: ConnId, authSeq: int, startOk: bool,
                          k: nat)
    requires IsRun(ls, es) && j < |ls| && k < |ls[j]|
    requires LiveMatch(ls[j][k], connId, true) && ls[j][k].idType == S.Udid
    ensures HandleDeviceId(ls[j], connId, authSeq, true, true, startOk) == Outcome(ls[j], Deferred)
  {
    RunKeepsInv(ls, es, j);
    DispatchToLive(ls[j], connId, authSeq, startOk, k);
  }

  /** Whatever names a session by its number reaches it: a server's device id, device info and close acks. */
  lemma NamedMessagesReachTheirSession(list: seq<Entry>, connId: ConnId, authSeq: int, fromServer: bool, startOk: bool,
                                       connOk: bool, k: nat)
    requires Carries(list, authSeq, k)
    ensures HandleDeviceId(list, connId, authSeq, false, startOk, startOk) == Outcome(list, PostedTo(k))
    ensures RouteInfo(list, connId, authSeq, fromServer, false, true, connOk) == Some(k)
    ensures authSeq != 0 ==> RouteAck(list, connId, authSeq, fromServer, true) == Some(k)
    ensures RouteInfo(list, connId, authSeq, fromServer, true, true, connOk) == None
  {
    hide ByConnId, BySeq;
    SeqFindsItsSession(list, authSeq, k);
  }

  /** Messages from a server that name no session reach the client session of their connection. */
  lemma UnnamedMessagesReachTheClient(list: seq<Entry>, connId: ConnId, authSeq: int, k: nat)
    requires k < |list| && LiveMatch(list[k], connId, false) && BySeq(list, authSeq).None?
    requires forall i :: 0 <= i < |list| && Matches(list[i], connId, false) ==> i == k
    ensures RouteInfo(list, connId, authSeq, true, false, true, true) == Some(k)
    ensures RouteAck(list, connId, 0, true, true) == Some(k)
  {
    hide BySeq;
    ConnFindsItsSession(list, connId, false, k);
  }

  lemma {:induction false} ConnFindsItsSession(list: seq<Entry>, connId: ConnId, isServer: bool, k: nat)
    requires k < |list| && LiveMatch(list[k], connId, isServer)
    requires forall i :: 0 <= i < |list| && Matches(list[i], connId, isServer) ==> i == k
    ensures ByConnId(list, connId, isServer) == Some(k)
  {
    if k > 0 {
      forall i | 0 <= i < |list[1..]| && Matches(list[1..][i], connId, isServer) ensures i == k - 1 {
        assert Matches(list[i + 1], connId, isServer);
      }
      ConnFindsItsSession(list[1..], connId, isServer, k - 1);
    }
  }

  /** An ended session matches the open connections it matched before, unless it was a WiFi session that failed. */
  lemma EndedMatches(e: Entry, failed: bool, connId: ConnId, isServer: bool)
    requires Open(connId)
    ensures Ended(e, failed).isDead
    ensures Matches(Ended(e, failed), connId, isServer) <==>
      Matches(e, connId, isServer) && !(failed && GetConnType(e.connId) as int == AUTH_LINK_TYPE_WIFI)
  {
    UpdateFdKeepsType(e.connId, AUTH_INVALID_FD as Int32);
  }

  /** Why device ids must not come from a closed socket: a failing WiFi session would hide a live one. */
  lemma ClosedSocketHides()
    ensures var closed := GenConnId(1, -1);
      var list := [Entry(1, GenConnId(1, 3), true, S.Udid, false), Entry(2, closed, true, S.Udid, false)];
      var now := list[0 := Ended(list[0], true)];
      LiveIsFirst(list) && LiveMatch(now[1], closed, true) && ByConnId(now, closed, true).None?
  {
    ConnIdRoundTrip(1, 3);
    UpdateFdKeepsType(GenConnId(1, 3), -1);
  }
}

/** The list of waiting authentication requests, and the two report functions that answer them. */
module AuthRequests {
  import opened Options

  const AUTH_REQUEST_TIMEOUT: int := 30000
  const SHORT_HASH_LEN: nat := 8
  const U64: int := 0x1_0000_0000_0000_0000

  // ------------------------------------------------------ connections

  type Hash = h: seq<int> | |h| == 32 witness seq(32, i => 0)

  datatype Conn =
    | Wifi(ip: string)
    | Br(mac: string)
    | Ble(mac: string, hash: Hash)
    | P2p(ip: string, port: int)
    | EnhancedP2p(ip: string, port: int)
    | Unknown

  function Upper(c: char): char
  {
    if 'a' <= c <= 'z' then c - 32 as char else c
  }

  /** StrCmpIgnoreCase. */
  predicate SameMac(a: string, b: string)
  {
    |a| == |b| && forall i :: 0 <= i < |a| ==> Upper(a[i]) == Upper(b[i])
  }

  predicate SameHash(a: Hash, b: Hash)
  {
    a[..SHORT_HASH_LEN] == b[..SHORT_HASH_LEN]
  }

  /** CompareConnInfo with short hashes. */
  predicate Same(a: Conn, b: Conn)
  {
    match a
    case Wifi(ip) => b.Wifi? && ip == b.ip
    case Br(mac) => b.Br? && SameMac(mac, b.mac)
    case Ble(mac, hash) => b.Ble? && (SameHash(hash, b.hash) || SameMac(mac, b.mac))
    case P2p(ip, port) => b.P2p? && ip == b.ip && port == b.port
    case EnhancedP2p(ip, port) => b.EnhancedP2p? && ip == b.ip && port == b.port
    case Unknown => false
  }

  function Uppered(s: string): string
  {
    seq(|s|, i requires 0 <= i < |s| => Upper(s[i]))
  }

  /**
   Bluetooth addresses are the same up to case, a Bluetooth low energy device by its short hash as well; any other
   known connection is the same only as itself, by address and, on P2P, by port.
   */
  lemma SameMeans(a: Conn, b: Conn)
    ensures a.Br? && b.Br? ==> (Same(a, b) <==> Uppered(a.mac) == Uppered(b.mac))
    ensures a.Ble? && b.Ble? ==>
      (Same(a, b) <==> a.hash[..8] == b.hash[..8] || Uppered(a.mac) == Uppered(b.mac))
    ensures !(a.Br? && b.Br?) && !(a.Ble? && b.Ble?) ==> (Same(a, b) <==> a == b && !a.Unknown?)
  {
    if (a.Br? && b.Br?) || (a.Ble? && b.Ble?) { SameMacMeans(a.mac, b.mac); }
  }

  lemma SameMacMeans(a: string, b: string)
    ensures SameMac(a, b) <==> Uppered(a) == Uppered(b)
  {
    if Uppered(a) == Uppered(b) {
      assert |a| == |Uppered(a)| == |b|;
      forall i | 0 <= i < |a| ensures Upper(a[i]) == Upper(b[i]) { assert Uppered(a)[i] == Uppered(b)[i]; }
    }
  }

  lemma SameIsSymmetric(a: Conn, b: Conn)
    ensures Same(a, b) == Same(b, a)
  {
  }

  /** On every link but Bluetooth low energy, comparison is an equivalence of known connections. */
  lemma SameIsTransitive(a: Conn, b: Conn, c: Conn)
    requires Same(a, b) && Same(b, c) && !a.Ble?
    ensures Same(a, c)
  {
  }

  // ------------------------------------------------------ the list

  datatype Kind = Verify | Reconnect | Connect

  /** A request; the flags say whether its connection and its verify callbacks are complete. */
  datatype Request = Request(id: nat, conn: Conn, kind: Kind, connCb: bool, verifyCb: bool, addTime: nat)

  datatype Callback = ConnOpened(id: nat) | ConnOpenFailed(id: nat) | VerifyPassed(id: nat) | VerifyFailed(id: nat)

  datatype Outcome = Outcome(list: seq<Request>, calls: seq<Callback>)

  function Find(list: seq<Request>, id: nat): (r: Option<Request>)
    ensures r.Some? ==> r.value in list && r.value.id == id
    ensures r.None? ==> forall i :: 0 <= i < |list| ==> list[i].id != id
  {
    if list == [] then None else if list[0].id == id then Some(list[0]) else Find(list[1..], id)
  }

  /** FindAuthRequestByConnInfo: the first request for verification on the connection. */
  function FindVerify(list: seq<Request>, conn: Conn): (r: Option<Request>)
    ensures r.Some? ==> r.value in list && r.value.kind == Verify && Same(r.value.conn, conn)
    ensures r.None? ==> forall i :: 0 <= i < |list| && list[i].kind == Verify ==> !Same(list[i].conn, conn)
  {
    if list == [] then None
    else if list[0].kind == Verify && Same(list[0].conn, conn) then Some(list[0])
    else FindVerify(list[1..], conn)
  }

  function Del(list: seq<Request>, id: nat): (l: seq<Request>)
    ensures Find(list, id).Some? ==> |l| == |list| - 1
    ensures Find(list, id).None? ==> l == list
  {
    if list == [] then [] else if list[0].id == id then list[1..] else [list[0]] + Del(list[1..], id)
  }

  function FailCall(r: Request): seq<Callback>
  {
    if r.connCb then [ConnOpenFailed(r.id)] else if r.verifyCb then [VerifyFailed(r.id)] else []
  }

  /** The request is for the same purpose on the same connection as the one just added. */
  predicate Alike(added: Request, r: Request)
  {
    r.kind == added.kind && Same(added.conn, r.conn)
  }

  /** It is another one and has waited for 30 seconds, by a difference of uint64_t clock values. */
  predicate Stale(added: Request, r: Request)
  {
    Alike(added, r) && r.id != added.id && (added.addTime - r.addTime) % U64 >= AUTH_REQUEST_TIMEOUT
  }

  /** GetAuthRequestWaitNum: stale requests are failed and dropped. */
  function Sweep(list: seq<Request>, added: Request): Outcome
  {
    if list == [] then Outcome([], [])
    else
      var o, r := Sweep(list[..|list| - 1], added), list[|list| - 1];
      if Stale(added, r) then Outcome(o.list, o.calls + FailCall(r)) else Outcome(o.list + [r], o.calls)
  }

  function Waiting(list: seq<Request>, added: Request): nat
  {
    if list == [] then 0 else Waiting(list[..|list| - 1], added) + if Alike(added, list[|list| - 1]) then 1 else 0
  }

  function Add(list: seq<Request>, r: Request): Outcome
  {
    Sweep(list + [r], r)
  }

  // ------------------------------------------------------ reports

  /** ReportAuthRequestFailed; `connects(n)` says whether the n-th attempt to connect gets under way. */
  function Fail(list: seq<Request>, id: nat, connects: nat -> bool, n: nat): Outcome
    decreases |list|
  {
    match Find(list, id)
    case None => Outcome(list, [])
    case Some(r) =>
      var rest := Del(list, id);
      match FindVerify(rest, r.conn)
      case None => Outcome(rest, FailCall(r))
      case Some(v) =>
        if connects(n) then Outcome(rest, FailCall(r))
        else
          var o := Fail(rest, v.id, connects, n + 1);
          Outcome(o.list, FailCall(r) + o.calls)
  }

  /** How StartReconnectDevice turns out, unless AddAuthRequest counts no request alike: that is a failure too. */
  datatype Reconnection = NoAuth | NotAdded | NotConnected(now: nat) | Underway(now: nat)

  function ReconnectRequest(r: Request, now: nat): Request
  {
    Request(r.id, r.conn, Reconnect, true, false, now)
  }

  predicate KeepsConnection(c: Conn)
  {
    c.Wifi? || c.P2p? || c.EnhancedP2p?
  }

  /** One round of ReportAuthRequestPassed. */
  function PassOne(list: seq<Request>, r: Request, x: Reconnection): Outcome
  {
    var rest := Del(list, r.id);
    if !r.connCb then Outcome(rest, if r.verifyCb then [VerifyPassed(r.id)] else [])
    else if KeepsConnection(r.conn) then Outcome(rest, [ConnOpened(r.id)])
    else match x
      case NoAuth => Outcome(rest, [ConnOpenFailed(r.id)])
      case NotAdded => Outcome(rest, [ConnOpenFailed(r.id)])
      case NotConnected(now) =>
        var again := ReconnectRequest(r, now);
        var o := Add(rest, again);
        Outcome(if Waiting(rest + [again], again) == 0 then o.list else Del(o.list, r.id),
                o.calls + [ConnOpenFailed(r.id)])
      case Underway(now) =>
        var again := ReconnectRequest(r, now);
        var o := Add(rest, again);
        Outcome(o.list, o.calls + if Waiting(rest + [again], again) == 0 then [ConnOpenFailed(r.id)] else [])
  }

  // ------------------------------------------------------ ids stay unique

  predicate Unique(list: seq<Request>)
  {
    forall i, j :: 0 <= i < j < |list| ==> list[i].id != list[j].id
  }

  function VerifyCount(list: seq<Request>): nat
  {
    if list == [] then 0 else VerifyCount(list[..|list| - 1]) + if list[|list| - 1].kind == Verify then 1 else 0
  }

  lemma {:induction false} VerifyCountAdd(a: seq<Request>, b: seq<Request>)
    ensures VerifyCount(a + b) == VerifyCount(a) + VerifyCount(b)
  {
    if b == [] {
      assert a + b == a;
    } else {
      assert (a + b)[..|a + b| - 1] == a + b[..|b| - 1];
      VerifyCountAdd(a, b[..|b| - 1]);
    }
  }

  lemma {:induction false} FindAdd(a: seq<Request>, b: seq<Request>, id: nat)
    ensures Find(a + b, id) == if Find(a, id).Some? then Find(a, id) else Find(b, id)
  {
    if a == [] {
      assert a + b == b;
    } else {
      assert (a + b)[1..] == a[1..] + b;
      FindAdd(a[1..], b, id);
    }
  }

  /** Deletion takes out the first request with the id. */
  lemma {:induction false} DelSplits(list: seq<Request>, id: nat) returns (k: nat)
    requires Find(list, id).Some?
    ensures k < |list| && list[k] == Find(list, id).value && Del(list, id) == list[..k] + list[k + 1..]
  {
    if list[0].id == id {
      k := 0;
    } else {
      var rest := list[1..];
      var j := DelSplits(rest, id);
      k := j + 1;
      assert rest[j] == list[k];
      calc {
        Del(list, id);
        [list[0]] + (rest[..j] + rest[j + 1..]);
        list[..k] + list[k + 1..];
      }
    }
  }

  lemma DelFacts(list: seq<Request>, r: Request)
    requires Unique(list) && r in list
    ensures Find(list, r.id) == Some(r) && Unique(Del(list, r.id)) && Find(Del(list, r.id), r.id) == None
    ensures forall q :: q in Del(list, r.id) ==> q in list
  {
    hide Find, Del;
    FindMember(list, r);
    var k := DelSplits(list, r.id);
    var rest := list[..k] + list[k + 1..];
    forall i | 0 <= i < |rest| ensures rest[i].id != r.id && rest[i] in list {
      assert rest[i] == list[if i < k then i else i + 1];
    }
    forall i, j | 0 <= i < j < |rest| ensures rest[i].id != rest[j].id {
      assert rest[i] == list[if i < k then i else i + 1] && rest[j] == list[if j < k then j else j + 1];
    }
  }

  lemma DelCounts(list: seq<Request>, r: Request)
    requires Unique(list) && r in list
    ensures VerifyCount(list) == VerifyCount(Del(list, r.id)) + if r.kind == Verify then 1 else 0
  {
    hide Find, Del, Unique, VerifyCount;
    FindMember(list, r);
    var k := DelSplits(list, r.id);
    assert list == list[..k] + [r] + list[k + 1..];
    VerifyCountAdd(list[..k], list[k + 1..]);
    VerifyCountAdd(list[..k] + [r], list[k + 1..]);
    VerifyCountAdd(list[..k], [r]);
    VerifyCountOne(r);
  }

  lemma VerifyCountOne(r: Request)
    ensures VerifyCount([r]) == if r.kind == Verify then 1 else 0
  {
    assert [r][..0] == [];
  }

  lemma {:induction false} FindMember(list: seq<Request>, r: Request)
    requires Unique(list) && r in list
    ensures Find(list, r.id) == Some(r)
  {
    if list[0] != r {
      var i :| 0 <= i < |list| && list[i] == r;
      assert list[0].id != r.id;
      FindMember(list[1..], r);
    }
  }
}

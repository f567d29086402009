/** Which callback each request gets, how far a failing report goes, and what a sweep drops. */
module AuthCallbacks {
  import opened Options
  import opened AuthRequests
  import opened AuthReports
  import opened AuthServes

  // ------------------------------------------------------ the callbacks of a passing report

  /** The callback a passing report may make for a request. Failing a verification is left to stale reconnections. */
  predicate Suits(r: Request, c: Callback)
  {
    match c
    case VerifyPassed(_) => !r.connCb && r.verifyCb
    case VerifyFailed(_) => !r.connCb && r.verifyCb && r.kind == Reconnect
    case ConnOpened(_) => r.connCb && KeepsConnection(r.conn)
    case ConnOpenFailed(_) => r.connCb && !KeepsConnection(r.conn)
  }

  predicate AllSuit(list: seq<Request>, calls: seq<Callback>)
  {
    forall c :: c in calls ==> Find(list, c.id).Some? && Suits(Find(list, c.id).value, c)
  }

  /** The callback a failure makes. */
  predicate TellsFailure(r: Request, c: Callback)
  {
    match c
    case VerifyFailed(_) => !r.connCb && r.verifyCb
    case ConnOpenFailed(_) => r.connCb
    case _ => false
  }

  predicate AllTellFailure(list: seq<Request>, calls: seq<Callback>)
  {
    forall c :: c in calls ==> Find(list, c.id).Some? && TellsFailure(Find(list, c.id).value, c)
  }

  lemma {:induction false} SweepTellsFailure(list: seq<Request>, added: Request)
    requires Unique(list)
    ensures AllTellFailure(list, Sweep(list, added).calls)
    ensures forall c :: c in Sweep(list, added).calls ==> Stale(added, Find(list, c.id).value)
  {
    hide Stale, Find;
    if list != [] {
      var n := |list| - 1;
      var front, r := list[..n], list[n];
      assert list == front + [r];
      SweepTellsFailure(front, added);
      FindMember(list, r);
      forall id: nat ensures Find(list, id) == if Find(front, id).Some? then Find(front, id) else Find([r], id) {
        FindAdd(front, [r], id);
      }
    }
  }

  /** The id still has its request, or a reconnection in its place that gets the same callbacks. */
  predicate Inherits(list: seq<Request>, now: seq<Request>, id: nat)
  {
    Find(now, id).Some? ==>
      && Find(list, id).Some?
      && var r, q := Find(list, id).value, Find(now, id).value;
        q == r || (q.connCb && r.connCb && q.conn == r.conn && !KeepsConnection(r.conn))
  }

  lemma SuitsFrom(list: seq<Request>, now: seq<Request>, calls: seq<Callback>)
    requires AllSuit(now, calls) && forall id: nat :: Inherits(list, now, id)
    ensures AllSuit(list, calls)
  {
    hide Find;
    forall c | c in calls ensures Find(list, c.id).Some? && Suits(Find(list, c.id).value, c) {
      assert Inherits(list, now, c.id);
    }
  }

  /** Requests that a reconnection sweeps away are on a connection that is not kept. */
  lemma ReconnectSweepSuits(rest: seq<Request>, again: Request)
    requires Unique(rest) && Find(rest, again.id).None? && again.kind == Reconnect && !KeepsConnection(again.conn)
    ensures AllSuit(rest, Add(rest, again).calls)
  {
    hide Find, Sweep;
    AppendUnique(rest, again);
    SweepTellsFailure(rest + [again], again);
    forall c | c in Add(rest, again).calls ensures Find(rest, c.id).Some? && Suits(Find(rest, c.id).value, c) {
      FindAdd(rest, [again], c.id);
      FindOne(again, c.id);
    }
  }

  lemma AddInherits(rest: seq<Request>, again: Request, id: nat)
    requires Unique(rest) && Find(rest, again.id).None? && id != again.id
    ensures Find(Add(rest, again).list, id).Some? ==> Find(Add(rest, again).list, id) == Find(rest, id)
  {
    hide Find, Sweep, Answers;
    AddBalanced(rest, again, id);
  }

  lemma PassOneInherits(list: seq<Request>, r: Request, x: Reconnection, id: nat)
    requires Unique(list) && r in list
    ensures Inherits(list, PassOne(list, r, x).list, id)
  {
    hide Find, Del, Sweep, Unique, Waiting;
    var rest := Del(list, r.id);
    DelFacts(list, r);
    DelFind(list, r, id);
    if r.connCb && !KeepsConnection(r.conn) && (x.NotConnected? || x.Underway?) {
      var again := ReconnectRequest(r, x.now);
      AddReconnect(rest, again);
      if id == r.id { AddBalanced(rest, again, id); } else { AddInherits(rest, again, id); }
      DelFind(Add(rest, again).list, again, id);
    }
  }

  lemma PassOneSuits(list: seq<Request>, r: Request, x: Reconnection)
    requires Unique(list) && r in list
    ensures AllSuit(list, PassOne(list, r, x).calls)
  {
    hide Find, Del, Sweep, Unique, Waiting, Add, AllSuit;
    var rest := Del(list, r.id);
    DelFacts(list, r);
    if r.connCb && !KeepsConnection(r.conn) && (x.NotConnected? || x.Underway?) {
      var again := ReconnectRequest(r, x.now);
      ReconnectSweepSuits(rest, again);
      forall id: nat ensures Inherits(list, rest, id) { DelFind(list, r, id); }
      SuitsFrom(list, rest, Add(rest, again).calls);
      SuitsAdd(list, Add(rest, again).calls, r, ConnOpenFailed(r.id));
    } else {
      SuitsAdd(list, [], r, VerifyPassed(r.id));
      SuitsAdd(list, [], r, ConnOpened(r.id));
      SuitsAdd(list, [], r, ConnOpenFailed(r.id));
      assert [] + [VerifyPassed(r.id)] == [VerifyPassed(r.id)] && [] + [ConnOpened(r.id)] == [ConnOpened(r.id)];
      assert [] + [ConnOpenFailed(r.id)] == [ConnOpenFailed(r.id)];
      NothingSuits(list);
    }
  }

  lemma NothingSuits(list: seq<Request>)
    ensures AllSuit(list, [])
  {
  }

  lemma SuitsAdd(list: seq<Request>, calls: seq<Callback>, r: Request, c: Callback)
    requires (calls == [] || AllSuit(list, calls)) && Find(list, r.id) == Some(r) && c.id == r.id
    ensures Suits(r, c) ==> AllSuit(list, calls + [c])
    ensures calls + [] == calls
  {
    hide Find;
  }

  /** A passing report makes only callbacks that suit the requests it started with. */
  lemma {:induction false} PassSuits(list: seq<Request>, r: Request, xs: nat -> Reconnection, n: nat)
    requires Unique(list) && r in list
    ensures AllSuit(list, Pass(list, r, xs, n).calls)
    decreases 2 * VerifyCount(list) + if r.kind == Verify then 0 else 1
  {
    hide PassOne, Unique, Find, AllSuit, Inherits;
    PassOneFacts(list, r, xs(n));
    PassOneSuits(list, r, xs(n));
    var o := PassOne(list, r, xs(n));
    match FindVerify(o.list, r.conn)
    case None =>
    case Some(v) =>
      PassSuits(o.list, v, xs, n + 1);
      forall id: nat ensures Inherits(list, o.list, id) { PassOneInherits(list, r, xs(n), id); }
      SuitsFrom(list, o.list, Pass(o.list, v, xs, n + 1).calls);
      SuitBoth(list, o.calls, Pass(o.list, v, xs, n + 1).calls);
  }

  lemma SuitBoth(list: seq<Request>, a: seq<Callback>, b: seq<Callback>)
    requires AllSuit(list, a) && AllSuit(list, b)
    ensures AllSuit(list, a + b)
  {
  }

  lemma {:induction false} AnsweredBy(calls: seq<Callback>, id: nat) returns (c: Callback)
    requires Answers(calls, id) > 0
    ensures c in calls && c.id == id
  {
    var n := |calls| - 1;
    if calls[n].id == id { c := calls[n]; } else { c := AnsweredBy(calls[..n], id); }
  }

  lemma {:induction false} AnswersOf(calls: seq<Callback>, c: Callback)
    requires c in calls
    ensures Answers(calls, c.id) > 0
  {
    var n := |calls| - 1;
    if calls[n] != c { AnswersOf(calls[..n], c); }
  }

  /**
   What a passing report tells about a request it takes out: that the verification passed, that the connection
   is open where the link keeps it, and that it failed where the reconnection did. Nobody else hears anything.
   */
  lemma PassTellsRightly(list: seq<Request>, r: Request, xs: nat -> Reconnection, q: Request)
    requires Unique(list) && r in list && q in list && !Botched(r, xs(0))
    ensures var o := Pass(list, r, xs, 0); var gone := Find(o.list, q.id).None?;
      var keeps := q.conn.Wifi? || q.conn.P2p? || q.conn.EnhancedP2p?;
      && Settled(list, o, q.id) && AllSuit(list, o.calls)
      && (ConnOpened(q.id) in o.calls <==> gone && q.connCb && keeps)
      && (ConnOpenFailed(q.id) in o.calls <==> gone && q.connCb && !keeps)
      && (q.kind != Reconnect ==> VerifyFailed(q.id) !in o.calls)
      && (q.kind != Reconnect ==> (VerifyPassed(q.id) in o.calls <==> gone && !q.connCb && q.verifyCb))
  {
    hide Pass, Unique, Find, Answers;
    var o := Pass(list, r, xs, 0);
    PassSuits(list, r, xs, 0);
    PassAnswersAll(list, r, xs, 0, q.id);
    FindMember(list, q);
    if Find(o.list, q.id).None? && (q.connCb || q.verifyCb) {
      var c := AnsweredBy(o.calls, q.id);
      assert Suits(q, c);
    } else {
      forall c | c in o.calls ensures c.id != q.id { AnswersOf(o.calls, c); }
    }
  }

  /** A reconnection under way waits in the place of its request, stamped with its own time; nobody is told. */
  lemma ReconnectionWaits(list: seq<Request>, r: Request, now: nat)
    requires Unique(list) && r in list && r.connCb && (r.conn.Br? || r.conn.Ble?)
    ensures var o := PassOne(list, r, Underway(now));
      Find(o.list, r.id) == Some(Request(r.id, r.conn, Reconnect, true, false, now)) && Answers(o.calls, r.id) == 0
  {
    hide Find, Del, Sweep, Unique, Waiting, Answers;
    var rest, again := Del(list, r.id), ReconnectRequest(r, now);
    DelFacts(list, r);
    AddBalanced(rest, again, r.id);
    WaitingCountsItself(rest, again);
    assert PassOne(list, r, Underway(now)).calls == Add(rest, again).calls;
  }

  // ------------------------------------------------------ a failing report

  /** A failing report tells nothing but failures. */
  lemma {:induction false} FailTellsFailure(list: seq<Request>, id: nat, connects: nat -> bool, n: nat)
    requires Unique(list)
    ensures AllTellFailure(list, Fail(list, id, connects, n).calls)
    decreases |list|
  {
    hide Unique, Del, FindVerify;
    if Find(list, id).Some? {
      var r := Find(list, id).value;
      var rest := Del(list, id);
      DelFacts(list, r);
      if FindVerify(rest, r.conn).Some? && !connects(n) {
        var v := FindVerify(rest, r.conn).value;
        FailTellsFailure(rest, v.id, connects, n + 1);
        forall c | c in Fail(rest, v.id, connects, n + 1).calls
          ensures Find(list, c.id).Some? && TellsFailure(Find(list, c.id).value, c)
        {
          DelFind(list, r, c.id);
        }
      }
    }
  }

  /** Once an attempt to connect gets under way, no further request is failed. */
  lemma {:induction false} FailStopsAtFirst(list: seq<Request>, id: nat, connects: nat -> bool, n: nat, m: nat)
    requires n <= m && connects(m)
    ensures |list| - |Fail(list, id, connects, n).list| <= m - n + 1
    decreases |list|
  {
    hide Find, FindVerify;
    if Find(list, id).Some? {
      var r := Find(list, id).value;
      var rest := Del(list, id);
      if FindVerify(rest, r.conn).Some? && !connects(n) {
        FailStopsAtFirst(rest, FindVerify(rest, r.conn).value.id, connects, n + 1, m);
      }
    }
  }

  /**
   If no attempt gets under way, every request for verification of the connection is failed, where comparison is
   transitive among that connection and those waiting on its link.
   */
  lemma FailServesConnection(list: seq<Request>, r: Request, connects: nat -> bool, n: nat)
    requires Unique(list) && r in list && Transitive(Involved(list, r.conn)) && forall m: nat :: !connects(m)
    ensures FindVerify(Fail(list, r.id, connects, n).list, r.conn).None?
  {
    hide Fail, Unique;
    SameIsReflexive(r.conn);
    if r.conn.Unknown? {
      NoVerifyOfUnknown(Fail(list, r.id, connects, n).list, r.conn);
    } else {
      FailsAll(list, r, connects, n, Involved(list, r.conn), r.conn);
    }
  }

  lemma {:induction false} FailsAll(list: seq<Request>, r: Request, connects: nat -> bool, n: nat,
                                    cs: set<Conn>, conn: Conn)
    requires Unique(list) && r in list && Transitive(cs) && conn in cs && r.conn in cs && Same(r.conn, conn)
    requires Involved(list, conn) <= cs && forall m: nat :: !connects(m)
    ensures FindVerify(Fail(list, r.id, connects, n).list, conn).None?
    decreases |list|
  {
    hide Unique, Same, Find, FailCall;
    DelFacts(list, r);
    var rest := Del(list, r.id);
    InvolvedShrinks(list, rest, conn);
    SameLinkOf(r.conn, conn);
    match FindVerify(rest, r.conn)
    case None => NoVerifyOf(rest, cs, r.conn, conn);
    case Some(v) =>
      SameLinkOf(v.conn, r.conn);
      InvolvedHas(rest, v, conn);
      ServesNext(cs, v.conn, r.conn, conn);
      FailsAll(rest, v, connects, n + 1, cs, conn);
  }

  lemma ServesNext(cs: set<Conn>, a: Conn, b: Conn, c: Conn)
    requires Transitive(cs) && a in cs && b in cs && c in cs && Same(a, b) && Same(b, c)
    ensures Same(a, c)
  {
  }

  // ------------------------------------------------------ a sweep

  /**
   A sweep keeps a request unless it is another one for the same purpose on the same connection, added at least
   30 seconds before, by clock values that have not wrapped.
   */
  lemma SweepKeepsExactly(list: seq<Request>, added: Request, q: Request)
    requires Unique(list) && q in list && 0 <= added.addTime - q.addTime < U64
    ensures q in Sweep(list, added).list <==>
      q.id == added.id || q.kind != added.kind || !Same(added.conn, q.conn) || added.addTime - q.addTime < 30_000
  {
    SweepKeeps(list, added, q);
  }

  /** So an addition keeps what it adds and all other requests but the stale ones. */
  lemma AddKeepsExactly(list: seq<Request>, r: Request, q: Request)
    requires Unique(list + [r]) && q in list && 0 <= r.addTime - q.addTime < U64
    ensures r in Add(list, r).list
    ensures q in Add(list, r).list <==> q.kind != r.kind || !Same(r.conn, q.conn) || r.addTime - q.addTime < 30_000
  {
    var i :| 0 <= i < |list| && list[i] == q;
    assert (list + [r])[i] == q && (list + [r])[|list|] == r;
    SweepKeepsExactly(list + [r], r, q);
    SweepKeepsExactly(list + [r], r, r);
  }

  lemma {:induction false} SweepKeeps(list: seq<Request>, added: Request, q: Request)
    ensures q in Sweep(list, added).list <==> q in list && !Stale(added, q)
  {
    hide Stale, FailCall;
    if list != [] { SweepKeeps(list[..|list| - 1], added, q); }
  }

  lemma NoIndices(list: seq<Request>, added: Request)
    requires |list| == 0
    ensures |set i | 0 <= i < |list| && list[i].kind == added.kind && Same(added.conn, list[i].conn)| == 0
  {
  }

  /** AddAuthRequest counts the requests for the same purpose on the same connection, stale ones included. */
  lemma {:induction false} WaitingCounts(list: seq<Request>, added: Request)
    ensures Waiting(list, added)
         == |set i | 0 <= i < |list| && list[i].kind == added.kind && Same(added.conn, list[i].conn)|
  {
    hide Same;
    if list != [] {
      var n := |list| - 1;
      var front := list[..n];
      WaitingCounts(front, added);
      var before := set i | 0 <= i < n && front[i].kind == added.kind && Same(added.conn, front[i].conn);
      var now := set i | 0 <= i < |list| && list[i].kind == added.kind && Same(added.conn, list[i].conn);
      assert now == before + if Alike(added, list[n]) then {n} else {};
    } else {
      NoIndices(list, added);
    }
  }

  /** The first request for verification of the connection is the one found. */
  lemma {:induction false} FindVerifyIsFirst(list: seq<Request>, conn: Conn, k: nat)
    requires k < |list| && list[k].kind == Verify && Same(list[k].conn, conn)
    requires forall i :: 0 <= i < k && list[i].kind == Verify ==> !Same(list[i].conn, conn)
    ensures FindVerify(list, conn) == Some(list[k])
  {
    if k > 0 { FindVerifyIsFirst(list[1..], conn, k - 1); }
  }
}

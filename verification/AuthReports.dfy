/** The reports end, keep request ids unique, and account for every request they take out. */
module AuthReports {
  import opened Options
  import opened AuthRequests

  // ------------------------------------------------------ answers

  function Answers(calls: seq<Callback>, id: nat): nat
  {
    if calls == [] then 0 else Answers(calls[..|calls| - 1], id) + if calls[|calls| - 1].id == id then 1 else 0
  }

  lemma {:induction false} AnswersAdd(a: seq<Callback>, b: seq<Callback>, id: nat)
    ensures Answers(a + b, id) == Answers(a, id) + Answers(b, id)
  {
    if b == [] {
      assert a + b == a;
    } else {
      assert (a + b)[..|a + b| - 1] == a + b[..|b| - 1];
      AnswersAdd(a, b[..|b| - 1], id);
    }
  }

  lemma AnswersOne(c: Callback, id: nat)
    ensures Answers([c], id) == if c.id == id then 1 else 0
    ensures Answers([], id) == 0
  {
    assert [c][..0] == [];
  }

  /** Somebody can be told about the request of an id. */
  predicate Answerable(r: Option<Request>)
  {
    r.Some? && (r.value.connCb || r.value.verifyCb)
  }

  /** The id has the request it had, if any, and nobody was told. */
  predicate Kept(list: seq<Request>, o: Outcome, id: nat)
  {
    Find(o.list, id) == Find(list, id) && Answers(o.calls, id) == 0
  }

  /** The id has no request, and was answered once exactly if it had one that can be answered. */
  predicate Resolved(list: seq<Request>, o: Outcome, id: nat)
  {
    Find(o.list, id) == None && Answers(o.calls, id) == if Answerable(Find(list, id)) then 1 else 0
  }

  /** The id's request with a connection callback gave way to a reconnection of the same connection, unanswered. */
  predicate Replaced(list: seq<Request>, o: Outcome, id: nat)
  {
    && Find(list, id).Some? && Find(o.list, id).Some? && Answers(o.calls, id) == 0
    && var r, q := Find(list, id).value, Find(o.list, id).value;
      r.connCb && q.kind == Reconnect && q.connCb && q.conn == r.conn
  }

  /** What a failing report and a sweep may do to an id. */
  predicate Balanced(list: seq<Request>, o: Outcome, id: nat)
  {
    Kept(list, o, id) || Resolved(list, o, id)
  }

  /** What a passing report may do to an id. */
  predicate Settled(list: seq<Request>, o: Outcome, id: nat)
  {
    Balanced(list, o, id) || Replaced(list, o, id)
  }

  lemma BalancedThen(list: seq<Request>, o: Outcome, next: Outcome, id: nat)
    requires Balanced(list, o, id) && Balanced(o.list, next, id)
    ensures Balanced(list, Outcome(next.list, o.calls + next.calls), id)
  {
    hide Find, Answers;
    AnswersAdd(o.calls, next.calls, id);
  }

  lemma SettledThen(list: seq<Request>, o: Outcome, next: Outcome, id: nat)
    requires Settled(list, o, id) && Settled(o.list, next, id)
    ensures Settled(list, Outcome(next.list, o.calls + next.calls), id)
  {
    hide Find, Answers;
    AnswersAdd(o.calls, next.calls, id);
  }

  // ------------------------------------------------------ deletion and addition

  lemma {:induction false} DelOthers(list: seq<Request>, gone: nat, id: nat)
    requires id != gone
    ensures Find(Del(list, gone), id) == Find(list, id)
  {
    if list != [] && list[0].id != gone { DelOthers(list[1..], gone, id); }
  }

  lemma DelFind(list: seq<Request>, r: Request, id: nat)
    requires Unique(list) && r in list
    ensures Find(Del(list, r.id), id) == (if id == r.id then None else Find(list, id)) && Find(list, r.id) == Some(r)
  {
    hide Del, Find, Unique;
    DelFacts(list, r);
    if id != r.id { DelOthers(list, r.id, id); }
  }

  /** Answering a request while deleting it balances. */
  lemma DelBalanced(list: seq<Request>, r: Request, calls: seq<Callback>, id: nat)
    requires Unique(list) && r in list
    requires Answers(calls, id) == if id == r.id && (r.connCb || r.verifyCb) then 1 else 0
    ensures Balanced(list, Outcome(Del(list, r.id), calls), id)
  {
    hide Del, Find, Unique, Answers;
    DelFind(list, r, id);
  }

  lemma FailCallAnswers(r: Request, id: nat)
    ensures Answers(FailCall(r), id) == if id == r.id && (r.connCb || r.verifyCb) then 1 else 0
  {
    hide Answers;
    AnswersOne(ConnOpenFailed(r.id), id);
    AnswersOne(VerifyFailed(r.id), id);
  }

  /** What a sweep leaves: some of the requests, in order, and all verifications if it is for something else. */
  lemma {:induction false} SweepFacts(list: seq<Request>, added: Request)
    requires Unique(list)
    ensures var o := Sweep(list, added); Unique(o.list) && forall q :: q in o.list ==> q in list
    ensures added.kind != Verify ==> VerifyCount(Sweep(list, added).list) == VerifyCount(list)
  {
    if list != [] {
      var n := |list| - 1;
      var front, r := list[..n], list[n];
      var o := Sweep(front, added);
      SweepFacts(front, added);
      forall i | 0 <= i < |o.list| ensures o.list[i].id != r.id { assert o.list[i] in front; }
      assert (o.list + [r])[..|o.list|] == o.list;
    }
  }

  lemma {:induction false} SweepBalanced(list: seq<Request>, added: Request, id: nat)
    requires Unique(list)
    ensures Balanced(list, Sweep(list, added), id)
  {
    hide Find, FailCall;
    if list == [] {
      AnswersOne(ConnOpened(0), id);
    } else {
      var n := |list| - 1;
      var front, r := list[..n], list[n];
      SweepBalanced(front, added, id);
      SweepLast(front, r, added, id);
      assert list == front + [r];
    }
  }

  lemma SweepLast(front: seq<Request>, r: Request, added: Request, id: nat)
    requires Unique(front + [r]) && Balanced(front, Sweep(front, added), id)
    ensures Balanced(front + [r], Sweep(front + [r], added), id)
  {
    hide Find, FailCall, Answers, Sweep;
    var o := Sweep(front, added);
    SweepStep(front, r, added);
    forall i | 0 <= i < |front| ensures front[i].id != r.id {
      assert (front + [r])[i] == front[i] && (front + [r])[|front|] == r;
    }
    assert Unique(front) by { assert forall i :: 0 <= i < |front| ==> front[i] == (front + [r])[i]; }
    SweepFacts(front, added);
    FindAdd(front, [r], id);
    FindAdd(o.list, [r], id);
    FindOne(r, id);
    FailCallAnswers(r, id);
    AnswersAdd(o.calls, FailCall(r), id);
  }

  lemma FindOne(r: Request, id: nat)
    ensures Find([r], id) == if r.id == id then Some(r) else None
  {
  }

  lemma SweepStep(front: seq<Request>, r: Request, added: Request)
    ensures var o := Sweep(front, added);
      Sweep(front + [r], added) == if Stale(added, r) then Outcome(o.list, o.calls + FailCall(r))
                                   else Outcome(o.list + [r], o.calls)
  {
    assert (front + [r])[..|front|] == front;
  }

  // ------------------------------------------------------ one request passes

  lemma AppendUnique(list: seq<Request>, r: Request)
    requires Unique(list) && Find(list, r.id).None?
    ensures Unique(list + [r])
  {
  }

  /** Adding a request for reconnection under an id that is free. */
  lemma AddReconnect(list: seq<Request>, r: Request)
    requires Unique(list) && Find(list, r.id).None? && r.kind == Reconnect && r.connCb
    ensures var o := Add(list, r);
      && Unique(o.list) && VerifyCount(o.list) == VerifyCount(list) && r in o.list
      && forall q :: q in o.list ==> q in list || q == r
  {
    hide Sweep, Find;
    AppendUnique(list, r);
    SweepFacts(list + [r], r);
    VerifyCountAdd(list, [r]);
    VerifyCountOne(r);
    SweepStep(list, r, r);
  }

  lemma AddBalanced(list: seq<Request>, r: Request, id: nat)
    requires Unique(list) && Find(list, r.id).None?
    ensures var o := Add(list, r);
      if id == r.id then Find(o.list, id) == Some(r) && Answers(o.calls, id) == 0 else Balanced(list, o, id)
  {
    hide Sweep, Find, Answers;
    AppendUnique(list, r);
    SweepBalanced(list + [r], r, id);
    FindAdd(list, [r], id);
    FindOne(r, id);
    if id == r.id {
      SweepStep(list, r, r);
      SweepFacts(list + [r], r);
      var o := Add(list, r);
      assert o.list[|o.list| - 1] == r;
      FindMember(o.list, r);
    }
  }

  /** AddAuthRequest counts the new request itself, except on a connection of unknown type. */
  lemma WaitingCountsItself(list: seq<Request>, r: Request)
    ensures Waiting(list + [r], r) == 0 <==> r.conn.Unknown?
  {
    assert (list + [r])[..|list|] == list;
    if r.conn.Unknown? { NothingAlike(list + [r], r); } else { SameIsReflexive(r.conn); }
  }

  lemma {:induction false} NothingAlike(list: seq<Request>, r: Request)
    requires r.conn.Unknown?
    ensures Waiting(list, r) == 0
  {
    if list != [] { NothingAlike(list[..|list| - 1], r); }
  }

  lemma SameIsReflexive(c: Conn)
    ensures Same(c, c) <==> !c.Unknown?
  {
  }

  /** A round takes out its request, keeps ids unique, and adds no request for verification. */
  lemma PassOneFacts(list: seq<Request>, r: Request, x: Reconnection)
    requires Unique(list) && r in list
    ensures var o := PassOne(list, r, x);
      && Unique(o.list) && (forall q :: q in o.list ==> q in list || q.kind == Reconnect)
      && VerifyCount(list) == VerifyCount(o.list) + if r.kind == Verify then 1 else 0
  {
    hide Del, Find, Sweep, Unique, VerifyCount, Waiting;
    var rest := Del(list, r.id);
    DelFacts(list, r);
    DelCounts(list, r);
    if r.connCb && !KeepsConnection(r.conn) && (x.NotConnected? || x.Underway?) {
      var again := ReconnectRequest(r, x.now);
      AddReconnect(rest, again);
      if x.NotConnected? {
        DelFacts(Add(rest, again).list, again);
        DelCounts(Add(rest, again).list, again);
      }
    }
  }

  /** The passing report reconnects on a connection of unknown type: the request is added but counts as not added. */
  predicate Botched(r: Request, x: Reconnection)
  {
    r.connCb && r.conn.Unknown? && (x.NotConnected? || x.Underway?)
  }

  lemma PassOneSettled(list: seq<Request>, r: Request, x: Reconnection, id: nat)
    requires Unique(list) && r in list && !Botched(r, x)
    ensures Settled(list, PassOne(list, r, x), id)
  {
    hide Del, Find, Sweep, Unique, Answers, Waiting;
    AnswersOne(VerifyPassed(r.id), id);
    AnswersOne(ConnOpened(r.id), id);
    AnswersOne(ConnOpenFailed(r.id), id);
    if r.connCb && !KeepsConnection(r.conn) && (x.NotConnected? || x.Underway?) {
      ReconnectSettled(list, r, x, id);
    } else {
      DelBalanced(list, r, PassOne(list, r, x).calls, id);
    }
  }

  lemma ReconnectSettled(list: seq<Request>, r: Request, x: Reconnection, id: nat)
    requires Unique(list) && r in list && r.connCb && !KeepsConnection(r.conn) && !r.conn.Unknown?
    requires x.NotConnected? || x.Underway?
    ensures Settled(list, PassOne(list, r, x), id)
  {
    hide Del, Find, Sweep, Unique, Answers, Waiting;
    var rest, again := Del(list, r.id), ReconnectRequest(r, x.now);
    var o := Add(rest, again);
    DelFacts(list, r);
    DelFind(list, r, id);
    AddBalanced(rest, again, id);
    WaitingCountsItself(rest, again);
    AddReconnect(rest, again);
    DelFind(o.list, again, id);
    AnswersAdd(o.calls, [ConnOpenFailed(r.id)], id);
    AnswersAdd(o.calls, [], id);
    AnswersOne(ConnOpenFailed(r.id), id);
  }

  /** Then the id is told that the connection failed, and keeps the reconnection all the same. */
  lemma BotchedIsToldAndKept(list: seq<Request>, r: Request, x: Reconnection)
    requires Unique(list) && r in list && Botched(r, x)
    ensures var o := PassOne(list, r, x);
      Find(o.list, r.id) == Some(ReconnectRequest(r, x.now)) && Answers(o.calls, r.id) == 1
  {
    hide Del, Find, Sweep, Unique, Answers, Waiting;
    var rest, again := Del(list, r.id), ReconnectRequest(r, x.now);
    DelFacts(list, r);
    AddBalanced(rest, again, r.id);
    WaitingCountsItself(rest, again);
    AnswersAdd(Add(rest, again).calls, [ConnOpenFailed(r.id)], r.id);
    AnswersOne(ConnOpenFailed(r.id), r.id);
  }

  // ------------------------------------------------------ the reports

  /** The rest of ReportAuthRequestPassed once its request is known; `xs(n)` is the n-th reconnection. */
  function Pass(list: seq<Request>, r: Request, xs: nat -> Reconnection, n: nat): Outcome
    requires Unique(list) && r in list
    decreases 2 * VerifyCount(list) + if r.kind == Verify then 0 else 1
  {
    PassOneFacts(list, r, xs(n));
    var o := PassOne(list, r, xs(n));
    match FindVerify(o.list, r.conn)
    case None => o
    case Some(v) =>
      var more := Pass(o.list, v, xs, n + 1);
      Outcome(more.list, o.calls + more.calls)
  }

  /** The next round of a passing report. */
  lemma PassRound(list: seq<Request>, r: Request, xs: nat -> Reconnection, n: nat)
    requires Unique(list) && r in list
    ensures var o := PassOne(list, r, xs(n));
      Unique(o.list) && match FindVerify(o.list, r.conn)
        case None => Pass(list, r, xs, n) == o
        case Some(v) =>
          Pass(list, r, xs, n) == Outcome(Pass(o.list, v, xs, n + 1).list, o.calls + Pass(o.list, v, xs, n + 1).calls)
  {
    hide PassOne;
    PassOneFacts(list, r, xs(n));
  }

  /**
   Each id keeps its request unanswered, loses it and is answered once if it can be, or is left with a
   reconnection of its connection, unanswered.
   */
  lemma {:induction false} PassAnswersAll(list: seq<Request>, r: Request, xs: nat -> Reconnection, n: nat, id: nat)
    requires Unique(list) && r in list && !Botched(r, xs(n))
    ensures Settled(list, Pass(list, r, xs, n), id) && Unique(Pass(list, r, xs, n).list)
    decreases 2 * VerifyCount(list) + if r.kind == Verify then 0 else 1
  {
    hide Settled, PassOne, Unique;
    PassOneFacts(list, r, xs(n));
    PassOneSettled(list, r, xs(n), id);
    var o := PassOne(list, r, xs(n));
    match FindVerify(o.list, r.conn)
    case None =>
    case Some(v) =>
      KnownConn(v.conn, r.conn);
      PassAnswersAll(o.list, v, xs, n + 1, id);
      SettledThen(list, o, Pass(o.list, v, xs, n + 1), id);
  }

  lemma KnownConn(a: Conn, b: Conn)
    requires Same(a, b)
    ensures !a.Unknown? && !b.Unknown?
  {
  }

  /** A passing report accounts for every id if and only if it does not start from a botched reconnection. */
  lemma PassSettlesExactly(list: seq<Request>, r: Request, xs: nat -> Reconnection)
    requires Unique(list) && r in list
    ensures (forall id: nat :: Settled(list, Pass(list, r, xs, 0), id)) <==> !Botched(r, xs(0))
  {
    hide Settled, PassOne, Unique, Find, Answers;
    if Botched(r, xs(0)) {
      BotchedIsToldAndKept(list, r, xs(0));
      PassOneFacts(list, r, xs(0));
      NoVerifyOfUnknown(PassOne(list, r, xs(0)).list, r.conn);
      assert Pass(list, r, xs, 0) == PassOne(list, r, xs(0));
      NotSettled(list, Pass(list, r, xs, 0), r.id);
    } else {
      forall id: nat ensures Settled(list, Pass(list, r, xs, 0), id) { PassAnswersAll(list, r, xs, 0, id); }
    }
  }

  lemma NotSettled(list: seq<Request>, o: Outcome, id: nat)
    requires Find(o.list, id).Some? && Answers(o.calls, id) == 1
    ensures !Settled(list, o, id)
  {
  }

  lemma {:induction false} NoVerifyOfUnknown(list: seq<Request>, c: Conn)
    requires c.Unknown?
    ensures FindVerify(list, c) == None
  {
    if list != [] { NoVerifyOfUnknown(list[1..], c); }
  }

  /** A failing report: each id keeps its request unanswered, or loses it and is answered once if it can be. */
  lemma {:induction false} FailAnswersAll(list: seq<Request>, id0: nat, connects: nat -> bool, n: nat, id: nat)
    requires Unique(list)
    ensures Balanced(list, Fail(list, id0, connects, n), id) && Unique(Fail(list, id0, connects, n).list)
    decreases |list|
  {
    hide Balanced, Unique, FailCall, Del;
    match Find(list, id0)
    case None => NothingBalanced(list, id);
    case Some(r) =>
      var rest := Del(list, id0);
      DelFacts(list, r);
      FailCallAnswers(r, id);
      DelBalanced(list, r, FailCall(r), id);
      match FindVerify(rest, r.conn)
      case None =>
      case Some(v) =>
        if !connects(n) {
          FailAnswersAll(rest, v.id, connects, n + 1, id);
          BalancedThen(list, Outcome(rest, FailCall(r)), Fail(rest, v.id, connects, n + 1), id);
        }
  }

  lemma NothingBalanced(list: seq<Request>, id: nat)
    ensures Balanced(list, Outcome(list, []), id)
  {
    AnswersOne(ConnOpened(0), id);
  }
}

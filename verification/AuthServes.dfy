/** Which requests for verification of its connection a passing report serves. */
module AuthServes {
  import opened Options
  import opened AuthRequests
  import opened AuthReports

  // ------------------------------------------------------ where comparison is transitive

  predicate SameLink(a: Conn, b: Conn)
  {
    || (a.Wifi? && b.Wifi?) || (a.Br? && b.Br?) || (a.Ble? && b.Ble?)
    || (a.P2p? && b.P2p?) || (a.EnhancedP2p? && b.EnhancedP2p?)
  }

  ghost predicate Transitive(cs: set<Conn>)
  {
    forall a, b, c :: a in cs && b in cs && c in cs && Same(a, b) && Same(b, c) ==> Same(a, c)
  }

  /** The connection, and those on its link that wait for verification. */
  function Involved(list: seq<Request>, conn: Conn): set<Conn>
  {
    {conn} + set i | 0 <= i < |list| && list[i].kind == Verify && SameLink(list[i].conn, conn) :: list[i].conn
  }

  lemma {:induction false} ServesAll(list: seq<Request>, r: Request, xs: nat -> Reconnection, n: nat,
                                     cs: set<Conn>, conn: Conn)
    requires Unique(list) && r in list && Transitive(cs) && conn in cs && r.conn in cs && Same(r.conn, conn)
    requires Involved(list, conn) <= cs
    ensures FindVerify(Pass(list, r, xs, n).list, conn).None?
    decreases 2 * VerifyCount(list) + if r.kind == Verify then 0 else 1
  {
    hide PassOne, Unique, Same, Find;
    PassOneFacts(list, r, xs(n));
    var o := PassOne(list, r, xs(n));
    InvolvedShrinks(list, o.list, conn);
    SameLinkOf(r.conn, conn);
    match FindVerify(o.list, r.conn)
    case None => NoVerifyOf(o.list, cs, r.conn, conn);
    case Some(v) =>
      SameLinkOf(v.conn, r.conn);
      InvolvedHas(o.list, v, conn);
      ServesAll(o.list, v, xs, n + 1, cs, conn);
  }

  lemma SameLinkOf(a: Conn, b: Conn)
    requires Same(a, b)
    ensures SameLink(a, b)
  {
  }

  lemma InvolvedHas(list: seq<Request>, v: Request, conn: Conn)
    requires v in list && v.kind == Verify && SameLink(v.conn, conn)
    ensures v.conn in Involved(list, conn)
  {
  }

  lemma InvolvedShrinks(list: seq<Request>, now: seq<Request>, conn: Conn)
    requires forall q :: q in now ==> q in list || q.kind == Reconnect
    ensures Involved(now, conn) <= Involved(list, conn)
  {
    forall c | c in Involved(now, conn) ensures c in Involved(list, conn) {
      if c != conn {
        var i :| 0 <= i < |now| && now[i].kind == Verify && SameLink(now[i].conn, conn) && now[i].conn == c;
        assert now[i] in list;
        InvolvedHas(list, now[i], conn);
      }
    }
  }

  lemma NoVerifyOf(list: seq<Request>, cs: set<Conn>, a: Conn, b: Conn)
    requires Transitive(cs) && a in cs && b in cs && Involved(list, b) <= cs && Same(a, b) && FindVerify(list, a).None?
    ensures FindVerify(list, b).None?
  {
    if FindVerify(list, b).Some? {
      var q := FindVerify(list, b).value;
      SameIsSymmetric(a, b);
      SameLinkOf(q.conn, b);
      InvolvedHas(list, q, b);
      assert false;
    }
  }

  /**
   A passing report leaves no request for verification of its connection if, among that connection and
   those waiting on its link, comparison is transitive.
   */
  lemma PassServesConnection(list: seq<Request>, r: Request, xs: nat -> Reconnection, n: nat)
    requires Unique(list) && r in list && Transitive(Involved(list, r.conn))
    ensures FindVerify(Pass(list, r, xs, n).list, r.conn).None?
  {
    hide Pass, Unique;
    SameIsReflexive(r.conn);
    if r.conn.Unknown? {
      NoVerifyOfUnknown(Pass(list, r, xs, n).list, r.conn);
    } else {
      ServesAll(list, r, xs, n, Involved(list, r.conn), r.conn);
    }
  }

  /** On every link but Bluetooth low energy it always is. */
  lemma OffBleIsTransitive(list: seq<Request>, conn: Conn)
    requires !conn.Ble?
    ensures Transitive(Involved(list, conn))
  {
    var cs := Involved(list, conn);
    forall a, b, c | a in cs && b in cs && c in cs && Same(a, b) && Same(b, c) ensures Same(a, c) {
      SameIsTransitive(a, b, c);
    }
  }

  // ------------------------------------------------------ where it is not

  function IfVerify(r: Request): seq<Request>
  {
    if r.kind == Verify then [r] else []
  }

  /** The requests for verification, in order. */
  function Verifies(list: seq<Request>): seq<Request>
  {
    if list == [] then [] else IfVerify(list[0]) + Verifies(list[1..])
  }

  lemma {:induction false} VerifiesAdd(a: seq<Request>, b: seq<Request>)
    ensures Verifies(a + b) == Verifies(a) + Verifies(b)
  {
    hide IfVerify;
    if a == [] {
      assert a + b == b;
    } else {
      assert (a + b)[1..] == a[1..] + b;
      VerifiesAdd(a[1..], b);
    }
  }

  lemma FindVerifyBehind(r: Request, rest: seq<Request>, conn: Conn)
    ensures FindVerify([r] + rest, conn)
         == if r.kind == Verify && Same(r.conn, conn) then Some(r) else FindVerify(rest, conn)
  {
    assert ([r] + rest)[1..] == rest;
  }

  lemma {:induction false} FindAmongVerifies(list: seq<Request>, conn: Conn)
    ensures FindVerify(list, conn) == FindVerify(Verifies(list), conn)
  {
    hide Same, FindVerify;
    if list != [] {
      FindAmongVerifies(list[1..], conn);
      assert list == [list[0]] + list[1..];
      FindVerifyBehind(list[0], list[1..], conn);
      FindVerifyBehind(list[0], Verifies(list[1..]), conn);
      assert Verifies(list) == if list[0].kind == Verify then [list[0]] + Verifies(list[1..]) else Verifies(list[1..]);
    }
  }

  lemma {:induction false} VerifiesFrom(list: seq<Request>)
    ensures forall q :: q in Verifies(list) ==> q in list
  {
    if list != [] { VerifiesFrom(list[1..]); }
  }

  lemma DelBehind(r: Request, rest: seq<Request>, id: nat)
    ensures Del([r] + rest, id) == if r.id == id then rest else [r] + Del(rest, id)
  {
    hide Find;
    assert ([r] + rest)[1..] == rest;
  }

  lemma {:induction false} DelAt(a: seq<Request>, r: Request, b: seq<Request>)
    requires forall q :: q in a ==> q.id != r.id
    ensures Del(a + [r] + b, r.id) == a + b
  {
    hide Del, Find;
    if a == [] {
      assert a + [r] + b == [r] + b && a + b == b;
      DelBehind(r, b, r.id);
    } else {
      assert a + [r] + b == [a[0]] + (a[1..] + [r] + b);
      DelBehind(a[0], a[1..] + [r] + b, r.id);
      DelAt(a[1..], r, b);
      assert a + b == [a[0]] + (a[1..] + b);
    }
  }

  lemma DelVerifies(list: seq<Request>, r: Request)
    requires Unique(list) && r in list
    ensures Verifies(Del(list, r.id)) == if r.kind == Verify then Del(Verifies(list), r.id) else Verifies(list)
  {
    hide Del, Find, Verifies;
    FindMember(list, r);
    var k := DelSplits(list, r.id);
    var a, b := list[..k], list[k + 1..];
    assert list == a + [r] + b;
    VerifiesAdd(a, b);
    VerifiesAdd(a + [r], b);
    VerifiesAdd(a, [r]);
    OneVerifies(r);
    VerifiesFrom(a);
    if r.kind == Verify {
      forall q | q in a ensures q.id != r.id {
        var j :| 0 <= j < k && list[j] == q;
        assert list[j].id != list[k].id;
      }
      DelAt(Verifies(a), r, Verifies(b));
    }
  }

  lemma {:induction false} SweepVerifies(list: seq<Request>, added: Request)
    requires added.kind != Verify
    ensures Verifies(Sweep(list, added).list) == Verifies(list)
  {
    hide Same, FailCall, Verifies, Sweep;
    if list == [] {
      NothingToSweep(added);
    } else {
      var n := |list| - 1;
      var front, r := list[..n], list[n];
      SweepVerifies(front, added);
      SweepStep(front, r, added);
      VerifiesAdd(front, [r]);
      VerifiesAdd(Sweep(front, added).list, [r]);
      OneVerifies(r);
      assert list == front + [r];
    }
  }

  lemma NothingToSweep(added: Request)
    ensures Sweep([], added).list == []
  {
  }

  lemma PassOneVerifies(list: seq<Request>, r: Request, x: Reconnection)
    requires Unique(list) && r in list
    ensures Verifies(PassOne(list, r, x).list) == Verifies(Del(list, r.id))
  {
    hide Del, Find, Sweep, Unique, Verifies, Waiting;
    var rest := Del(list, r.id);
    DelFacts(list, r);
    if r.connCb && !KeepsConnection(r.conn) && (x.NotConnected? || x.Underway?) {
      var again := ReconnectRequest(r, x.now);
      SweepVerifies(rest + [again], again);
      VerifiesAdd(rest, [again]);
      OneVerifies(again);
      AddReconnect(rest, again);
      DelVerifies(Add(rest, again).list, again);
    }
  }

  lemma OneVerifies(r: Request)
    ensures Verifies([r]) == if r.kind == Verify then [r] else []
  {
    assert [r][1..] == [];
  }

  /**
   Three requests, the last two on the first one's connection: the report from the first serves all of it
   if and only if the last two are on each other's.
   */
  lemma PassOverThree(a: Request, b: Request, c: Request, xs: nat -> Reconnection)
    requires Unique([a, b, c]) && b.kind == Verify && c.kind == Verify && Same(b.conn, a.conn) && Same(c.conn, a.conn)
    ensures FindVerify(Pass([a, b, c], a, xs, 0).list, a.conn).None? <==> Same(c.conn, b.conn)
  {
    hide Pass, PassOne, Del, Same, Unique, Find, Verifies, FindVerify;
    var l0 := [a, b, c];
    var l1 := PassOne(l0, a, xs(0)).list;
    PassRound(l0, a, xs, 0);
    PassOneFacts(l0, a, xs(0));
    PassOneVerifies(l0, a, xs(0));
    ThreeLessOne(a, b, c);
    FindAmongVerifies(l1, a.conn);
    FirstOfTwo(b, c, a.conn);
    var l2 := PassOne(l1, b, xs(1)).list;
    PassRound(l1, b, xs, 1);
    PassOneFacts(l1, b, xs(1));
    PassOneVerifies(l1, b, xs(1));
    DelVerifies(l1, b);
    TwoLessOne(b, c);
    FindAmongVerifies(l2, b.conn);
    FindAmongVerifies(l2, a.conn);
    OnlyOne(c, b.conn);
    OnlyOne(c, a.conn);
    if Same(c.conn, b.conn) { PassLast(l2, c, xs, a.conn); }
  }

  /** A report from the only request for verification leaves none. */
  lemma PassLast(list: seq<Request>, c: Request, xs: nat -> Reconnection, conn: Conn)
    requires Unique(list) && c in list && c.kind == Verify && Verifies(list) == [c]
    ensures FindVerify(Pass(list, c, xs, 2).list, conn).None?
  {
    hide Pass, PassOne, Del, Same, Unique, Find, Verifies, FindVerify;
    var rest := PassOne(list, c, xs(2)).list;
    PassRound(list, c, xs, 2);
    PassOneVerifies(list, c, xs(2));
    DelVerifies(list, c);
    OneLessOne(c);
    FindAmongVerifies(rest, c.conn);
    FindAmongVerifies(rest, conn);
    NoneAtAll(c.conn);
    NoneAtAll(conn);
  }

  lemma ThreeLessOne(a: Request, b: Request, c: Request)
    requires Unique([a, b, c]) && b.kind == Verify && c.kind == Verify
    ensures Del([a, b, c], a.id) == [b, c] && Verifies([b, c]) == [b, c]
  {
    assert [a, b, c][1..] == [b, c] && [b, c][1..] == [c];
    OneVerifies(c);
  }

  lemma FirstOfTwo(b: Request, c: Request, conn: Conn)
    requires b.kind == Verify && Same(b.conn, conn)
    ensures FindVerify([b, c], conn) == Some(b)
  {
  }

  lemma TwoLessOne(b: Request, c: Request)
    ensures Del([b, c], b.id) == [c]
  {
    assert [b, c][1..] == [c];
  }

  lemma OneLessOne(c: Request)
    ensures Del([c], c.id) == []
  {
  }

  lemma OnlyOne(c: Request, conn: Conn)
    requires c.kind == Verify
    ensures FindVerify([c], conn) == if Same(c.conn, conn) then Some(c) else None
  {
  }

  lemma NoneAtAll(conn: Conn)
    ensures FindVerify([], conn) == None
  {
  }

  /** Bluetooth low energy has such connections: one address with two hashes, and one hash with two addresses. */
  lemma BleMayLeaveOne(xs: nat -> Reconnection) returns (a: Request, b: Request, c: Request)
    ensures Unique([a, b, c]) && Same(b.conn, a.conn) && Same(c.conn, a.conn) && b.kind == Verify && c.kind == Verify
    ensures FindVerify(Pass([a, b, c], a, xs, 0).list, a.conn).Some?
  {
    hide Pass, Find;
    var h0, h1: Hash := seq(32, i => 0), seq(32, i => 1);
    a := Request(1, Ble("m", h0), Verify, false, true, 0);
    b := Request(2, Ble("m", h1), Verify, false, true, 0);
    c := Request(3, Ble("n", h0), Verify, false, true, 0);
    assert h0[..8][0] == 0 && h1[..8][0] == 1;
    assert Upper("m"[0]) == 'M' && Upper("n"[0]) == 'N';
    PassOverThree(a, b, c, xs);
  }
}

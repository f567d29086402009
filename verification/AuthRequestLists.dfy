/** The request list as the source keeps it: searched, swept and answered by loops and one recursion. */
module AuthRequestLists {
  import opened Options
  import opened AuthRequests
  import opened AuthReports
  import opened AuthCallbacks

  class AuthRequestList {
    var list: seq<Request>
    var calls: seq<Callback>   // callbacks made, in order

    constructor ()
      ensures list == [] && calls == []
    {
      list, calls := [], [];
    }

    method FindAuthRequestByRequestId(id: nat) returns (r: Option<Request>)
      ensures r == Find(list, id)
    {
      for i := 0 to |list|
        invariant Find(list, id) == Find(list[i..], id)
      {
        assert list[i..][1..] == list[i + 1..];
        if list[i].id == id { return Some(list[i]); }
      }
      return None;
    }

    method FindAuthRequestByConnInfo(conn: Conn) returns (r: Option<Request>)
      ensures r == FindVerify(list, conn)
    {
      for i := 0 to |list|
        invariant FindVerify(list, conn) == FindVerify(list[i..], conn)
      {
        assert list[i..][1..] == list[i + 1..];
        if list[i].kind == Verify && Same(list[i].conn, conn) { return Some(list[i]); }
      }
      return None;
    }

    method DelAuthRequest(id: nat)
      modifies `list
      ensures list == Del(old(list), id)
    {
      var i := 0;
      while i < |list|
        invariant i <= |list| && list == old(list)
        invariant Del(list, id) == list[..i] + Del(list[i..], id)
      {
        assert list[i..][1..] == list[i + 1..];
        if list[i].id == id {
          list := list[..i] + list[i + 1..];
          return;
        }
        i := i + 1;
      }
    }

    /** GetAuthRequestWaitNum: the number of requests alike, counted while stale ones are failed and dropped. */
    method GetAuthRequestWaitNum(added: Request) returns (num: nat)
      modifies this
      ensures var o := Sweep(old(list), added); list == o.list && calls == old(calls) + o.calls
      ensures num == Waiting(old(list), added)
    {
      hide Sweep, Waiting, FailCall, Same, Alike;
      ghost var all := list;
      var i, k := 0, 0;
      num := 0;
      NothingSwept(added);
      while k < |list|
        invariant i <= |all| && list == Sweep(all[..i], added).list + all[i..] && k == |Sweep(all[..i], added).list|
        invariant calls == old(calls) + Sweep(all[..i], added).calls && num == Waiting(all[..i], added)
        decreases |all| - i
      {
        assert i < |all|;
        SweepNext(all, i, added);
        var item := list[k];
        assert item == all[i] && list[..k] == Sweep(all[..i], added).list && list[k + 1..] == all[i + 1..];
        if !Alike(added, item) {
          k := k + 1;
        } else if item.id == added.id || (added.addTime - item.addTime) % U64 < AUTH_REQUEST_TIMEOUT {
          num := num + 1;
          k := k + 1;
        } else {
          calls := calls + FailCall(item);
          list := list[..k] + list[k + 1..];
          num := num + 1;
        }
        i := i + 1;
      }
      assert all[..i] == all;
    }

    method AddAuthRequest(r: Request) returns (num: nat)
      modifies this
      ensures var o := Add(old(list), r); list == o.list && calls == old(calls) + o.calls
      ensures num == Waiting(old(list) + [r], r)
    {
      list := list + [r];
      num := GetAuthRequestWaitNum(r);
    }

    method ReportAuthRequestFailed(id: nat, connects: nat -> bool, n: nat)
      modifies this
      ensures var o := Fail(old(list), id, connects, n); list == o.list && calls == old(calls) + o.calls
      ensures Unique(old(list)) ==> AllTellFailure(old(list), calls[|old(calls)|..])
      decreases |list|
    {
      hide Find, FindVerify, Del, FailCall, Unique, AllTellFailure;
      if Unique(list) { FailTellsFailure(list, id, connects, n); }
      ghost var all := Fail(list, id, connects, n).calls;
      assert (calls + all)[|calls|..] == all;
      var found := FindAuthRequestByRequestId(id);
      if found.None? { return; }
      var r := found.value;
      calls := calls + FailCall(r);
      DelAuthRequest(id);
      var next := FindAuthRequestByConnInfo(r.conn);
      if next.None? { return; }
      if !connects(n) { ReportAuthRequestFailed(next.value.id, connects, n + 1); }
    }

    /** StartReconnectDevice. A request that counts nothing alike, itself included, is reported as not added. */
    method StartReconnectDevice(r: Request, x: Reconnection) returns (ok: bool)
      modifies this
      ensures ok <==> x.Underway? && !r.conn.Unknown?
      ensures !x.NotConnected? && !x.Underway? ==> list == old(list) && calls == old(calls)
      ensures x.NotConnected? || x.Underway? ==>
        var o := Add(old(list), ReconnectRequest(r, x.now));
        && calls == old(calls) + o.calls
        && list == if x.NotConnected? && !r.conn.Unknown? then Del(o.list, r.id) else o.list
    {
      hide Del, Sweep, Waiting;
      if x.NoAuth? || x.NotAdded? { return false; }
      WaitingCountsItself(list, ReconnectRequest(r, x.now));
      var num := AddAuthRequest(ReconnectRequest(r, x.now));
      if num == 0 { return false; }
      if x.NotConnected? {
        DelAuthRequest(r.id);
        return false;
      }
      return true;
    }

    /** DelAuthRequest, StartReconnectDevice and the callback that reports its failure. */
    method Reconnect(r: Request, x: Reconnection)
      requires r.connCb && !KeepsConnection(r.conn)
      modifies this
      ensures var o := PassOne(old(list), r, x); list == o.list && calls == old(calls) + o.calls
    {
      hide Del, Sweep, Waiting;
      DelAuthRequest(r.id);
      if x.NotConnected? || x.Underway? { WaitingCountsItself(list, ReconnectRequest(r, x.now)); }
      var ok := StartReconnectDevice(r, x);
      if !ok { calls := calls + [ConnOpenFailed(r.id)]; }
    }

    method PassRequest(r: Request, x: Reconnection)
      modifies this
      ensures var o := PassOne(old(list), r, x); list == o.list && calls == old(calls) + o.calls
    {
      if r.connCb {
        if KeepsConnection(r.conn) {
          calls := calls + [ConnOpened(r.id)];
          DelAuthRequest(r.id);
        } else {
          Reconnect(r, x);
        }
      } else {
        if r.verifyCb { calls := calls + [VerifyPassed(r.id)]; }
        DelAuthRequest(r.id);
      }
    }

    method ReportAuthRequestPassed(id: nat, xs: nat -> Reconnection)
      requires Unique(list)
      modifies this
      ensures Unique(list)
      ensures match Find(old(list), id)
        case None => list == old(list) && calls == old(calls)
        case Some(r) => var o := Pass(old(list), r, xs, 0); list == o.list && calls == old(calls) + o.calls
      ensures AllSuit(old(list), calls[|old(calls)|..])
    {
      hide Pass, PassOne, Unique, VerifyCount, Find, FindVerify, AllSuit;
      NothingSuits(list);
      var found := FindAuthRequestByRequestId(id);
      if found.None? {
        assert calls[|calls|..] == [];
        return;
      }
      var r, n, more := found.value, 0, true;
      PassSuits(list, r, xs, 0);
      while more
        invariant Unique(list) && (more ==> r in list)
        invariant var o := Pass(old(list), found.value, xs, 0);
          if more then o.list == Pass(list, r, xs, n).list && old(calls) + o.calls == calls + Pass(list, r, xs, n).calls
          else o.list == list && old(calls) + o.calls == calls
        decreases if more then 1 + 2 * VerifyCount(list) + (if r.kind == Verify then 0 else 1) else 0
      {
        PassOneFacts(list, r, xs(n));
        PassRound(list, r, xs, n);
        PassRequest(r, xs(n));
        var next := FindAuthRequestByConnInfo(r.conn);
        more := next.Some?;
        if more { r, n := next.value, n + 1; }
      }
    }
  }

  lemma NothingSwept(added: Request)
    ensures Sweep([], added) == Outcome([], []) && Waiting([], added) == 0
  {
  }

  /** One more request, swept and counted. */
  lemma SweepNext(all: seq<Request>, i: nat, added: Request)
    requires i < |all|
    ensures var o, r, o' := Sweep(all[..i], added), all[i], Sweep(all[..i + 1], added);
      && (!Stale(added, r) ==> o'.list == o.list + [r] && o'.calls == o.calls)
      && (!Stale(added, r) ==> o'.list + all[i + 1..] == o.list + all[i..])
      && (Stale(added, r) ==> o'.list == o.list && o'.calls == o.calls + FailCall(r))
      && Waiting(all[..i + 1], added) == Waiting(all[..i], added) + if Alike(added, r) then 1 else 0
  {
    hide Sweep, Waiting, FailCall, Alike;
    assert all[..i + 1] == all[..i] + [all[i]];
    SweepStep(all[..i], all[i], added);
    WaitingStep(all[..i], all[i], added);
  }

  lemma WaitingStep(front: seq<Request>, r: Request, added: Request)
    ensures Waiting(front + [r], added) == Waiting(front, added) + if Alike(added, r) then 1 else 0
  {
    assert (front + [r])[..|front|] == front;
  }
}

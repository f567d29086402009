/** What holds of the looper over every run. */
module LooperTheorems {
  import opened Options
  import opened Bits
  import opened LooperSpec

  // ------------------------------------------------------ order

  predicate Before(a: Message, b: Message)
  {
    a.time < b.time || (a.time == b.time && a.number < b.number)
  }

  /** By due time, and in posting order among equals. */
  predicate Sorted(list: seq<Message>)
  {
    forall i, j :: 0 <= i < j < |list| ==> Before(list[i], list[j])
  }

  lemma {:induction false} InsertAddsOne(list: seq<Message>, m: Message)
    ensures multiset(Insert(list, m)) == multiset(list) + multiset{m} && |Insert(list, m)| == |list| + 1
  {
    if list != [] && list[0].time <= m.time {
      InsertAddsOne(list[1..], m);
      assert list == [list[0]] + list[1..];
    }
  }

  lemma {:induction false} InsertSorted(list: seq<Message>, m: Message)
    requires Sorted(list) && forall i :: 0 <= i < |list| ==> list[i].number < m.number
    ensures Sorted(Insert(list, m))
  {
    if list != [] && list[0].time <= m.time {
      var rest := Insert(list[1..], m);
      InsertSorted(list[1..], m);
      InsertAddsOne(list[1..], m);
      forall j | 0 <= j < |rest| ensures Before(list[0], rest[j]) {
        assert rest[j] in multiset(rest);
        if rest[j] != m { assert rest[j] in list[1..]; }
      }
    }
  }

  /** Insertion is stable: all that was due no later stays before the new message, all else behind. */
  lemma {:induction false} InsertSplits(list: seq<Message>, m: Message, k: nat)
    requires k <= |list| && forall i :: 0 <= i < k ==> list[i].time <= m.time
    requires k < |list| ==> list[k].time > m.time
    ensures Insert(list, m) == list[..k] + [m] + list[k..]
  {
    if k > 0 { InsertSplits(list[1..], m, k - 1); }
  }

  lemma {:induction false} KeepSorted(list: seq<Message>, drop: Message -> bool)
    requires Sorted(list)
    ensures Sorted(Keep(list, drop)) && forall x :: x in Keep(list, drop) ==> x in list
  {
    if list != [] {
      var n := |list| - 1;
      var kept := Keep(list[..n], drop);
      KeepSorted(list[..n], drop);
      forall j | 0 <= j < |kept| ensures Before(kept[j], list[n]) { assert kept[j] in list[..n]; }
    }
  }

  lemma {:induction false} KeepAndGone(list: seq<Message>, drop: Message -> bool)
    ensures multiset(list) == multiset(Keep(list, drop)) + multiset(Gone(list, drop))
    ensures |list| == |Keep(list, drop)| + |Gone(list, drop)|
  {
    if list != [] {
      var n := |list| - 1;
      var kept, gone := Keep(list[..n], drop), Gone(list[..n], drop);
      KeepAndGone(list[..n], drop);
      assert list == list[..n] + [list[n]];
      if drop(list[n]) {
        assert Keep(list, drop) == kept && Gone(list, drop) == gone + [list[n]];
      } else {
        assert Keep(list, drop) == kept + [list[n]] && Gone(list, drop) == gone;
      }
    }
  }

  // ------------------------------------------------------ invariant

  function Messages(fs: seq<Freed>): (ms: seq<Message>)
    ensures |ms| == |fs| && forall i :: 0 <= i < |fs| ==> ms[i] == fs[i].m
  {
    seq(|fs|, i requires 0 <= i < |fs| => fs[i].m)
  }

  function Held(c: Option<Freed>): multiset<Message>
  {
    if c.Some? then multiset{c.value.m} else multiset{}
  }

  /** Every accepted message is waiting, being handled, or freed, and only one of these, once. */
  predicate Conserved(x: Looper)
  {
    multiset(x.list) + Held(x.current) + multiset(Messages(x.freed)) == multiset(x.accepted)
  }

  predicate Numbered(ms: seq<Message>)
  {
    forall i :: 0 <= i < |ms| ==> ms[i].number == i
  }

  predicate Due(f: Freed)
  {
    f.Handled? ==> f.now >= f.m.time
  }

  predicate Inv(x: Looper)
  {
    && Sorted(x.list) && Conserved(x) && Numbered(x.accepted)
    && (!x.drained ==> x.msgSize == Wrap32(|x.list|))
    && (x.drained ==> x.list == [] && x.current.None? && x.stop && !x.running)
    && (x.current.Some? ==> x.current.value.Handled? && Due(x.current.value))
    && (forall i :: 0 <= i < |x.freed| ==> Due(x.freed[i]))
  }

  lemma MessagesAdd(a: seq<Freed>, b: seq<Freed>)
    ensures multiset(Messages(a + b)) == multiset(Messages(a)) + multiset(Messages(b))
  {
    assert Messages(a + b) == Messages(a) + Messages(b);
  }

  lemma ListIsAccepted(x: Looper, m: Message)
    requires Inv(x) && m in x.list
    ensures m in x.accepted && m.number < |x.accepted|
  {
    assert m in multiset(x.list);
    assert m in multiset(x.accepted);
  }

  lemma PostInv(x: Looper, t: Step)
    requires Inv(x) && t.Post?
    ensures Inv(Next(x, t))
  {
    hide Insert, Sorted, Messages, Conserved;
    if t.ok && !x.stop {
      var m := Message(|x.accepted|, t.time, t.handler, t.what);
      forall i | 0 <= i < |x.list| ensures x.list[i].number < m.number { ListIsAccepted(x, x.list[i]); }
      InsertSorted(x.list, m);
      InsertAddsOne(x.list, m);
      AcceptConserves(x, m, Next(x, t));
    }
  }

  lemma AcceptConserves(x: Looper, m: Message, x': Looper)
    requires Conserved(x) && x'.accepted == x.accepted + [m] && x'.current == x.current && x'.freed == x.freed
    requires multiset(x'.list) == multiset(x.list) + multiset{m}
    ensures Conserved(x')
  {
    hide Messages;
  }

  lemma TakeInv(x: Looper, t: Step)
    requires Inv(x) && t.Take? && Enabled(x, t)
    ensures Inv(Next(x, t))
  {
    assert x.list == [x.list[0]] + x.list[1..];
  }

  lemma RemoveInv(x: Looper, t: Step)
    requires Inv(x) && t.Remove?
    ensures Inv(Next(x, t))
  {
    hide Keep, Gone, Sorted, AllRemoved, Messages, Conserved;
    if x.running && !x.stop {
      KeepSorted(x.list, t.drop);
      KeepAndGone(x.list, t.drop);
      RemoveConserves(x, Next(x, t), Gone(x.list, t.drop));
    }
  }

  lemma RemoveConserves(x: Looper, x': Looper, gone: seq<Message>)
    requires Conserved(x) && x'.accepted == x.accepted && x'.current == x.current
    requires multiset(x.list) == multiset(x'.list) + multiset(gone) && x'.freed == x.freed + AllRemoved(gone)
    ensures Conserved(x')
  {
    hide AllRemoved, Messages;
    MessagesAdd(x.freed, AllRemoved(gone));
    assert Messages(AllRemoved(gone)) == gone;
  }

  lemma FreeInv(x: Looper, t: Step)
    requires Inv(x) && (t.Finish? || t.Drain?) && Enabled(x, t)
    ensures Inv(Next(x, t))
  {
    if t.Finish? {
      MessagesAdd(x.freed, [x.current.value]);
      assert Messages([x.current.value]) == [x.current.value.m];
    } else {
      MessagesAdd(x.freed, AllDrained(x.list));
      assert Messages(AllDrained(x.list)) == x.list;
    }
  }

  lemma StepInv(x: Looper, t: Step)
    requires Inv(x) && Enabled(x, t)
    ensures Inv(Next(x, t))
  {
    match t
    case Post(_, _, _, _) => PostInv(x, t);
    case Take(_) => TakeInv(x, t);
    case Remove(_) => RemoveInv(x, t);
    case Finish => FreeInv(x, t);
    case Drain => FreeInv(x, t);
    case _ =>
  }

  lemma {:induction false} RunInv(xs: seq<Looper>, ts: seq<Step>, j: nat)
    requires IsRun(xs, ts) && j < |xs|
    ensures Inv(xs[j])
  {
    hide Inv, Next, Enabled;
    if j == 0 {
      StartInv();
    } else {
      RunInv(xs, ts, j - 1);
      assert xs[j - 1 + 1] == Next(xs[j - 1], ts[j - 1]);
      StepInv(xs[j - 1], ts[j - 1]);
    }
  }

  lemma StartInv()
    ensures Inv(Start())
  {
  }

  // ------------------------------------------------------ theorems

  /** In every reachable state the list is sorted with ties in posting order, and msgSize is its length. */
  lemma ListStaysSorted(xs: seq<Looper>, ts: seq<Step>, j: nat)
    requires IsRun(xs, ts) && j < |xs|
    ensures Sorted(xs[j].list) && (!xs[j].drained ==> xs[j].msgSize == Wrap32(|xs[j].list|))
  {
    RunInv(xs, ts, j);
  }

  /** No message is handled before it is due. */
  lemma NeverEarly(xs: seq<Looper>, ts: seq<Step>, j: nat, f: Freed)
    requires IsRun(xs, ts) && j < |xs| && (f in xs[j].freed || xs[j].current == Some(f)) && f.Handled?
    ensures f.now >= f.m.time
  {
    RunInv(xs, ts, j);
  }

  /** A message that is taken leaves nothing behind that was due earlier, or as early and posted earlier. */
  lemma TakenInOrder(xs: seq<Looper>, ts: seq<Step>, j: nat, m: Message)
    requires IsRun(xs, ts) && j < |ts| && ts[j].Take? && Enabled(xs[j], ts[j]) && m in xs[j + 1].list
    ensures xs[j + 1].current.Some? && Before(xs[j + 1].current.value.m, m)
  {
    hide Inv, Next;
    RunInv(xs, ts, j);
    assert xs[j + 1] == Next(xs[j], ts[j]);
    TakesFirst(xs[j], ts[j], m);
  }

  lemma TakesFirst(x: Looper, t: Step, m: Message)
    requires Inv(x) && t.Take? && Enabled(x, t) && m in Next(x, t).list
    ensures Next(x, t).current.Some? && Before(Next(x, t).current.value.m, m)
  {
  }

  /** What was accepted and what was freed stay so. */
  lemma {:induction false} RecordsGrow(xs: seq<Looper>, ts: seq<Step>, j: nat, k: nat)
    requires IsRun(xs, ts) && j <= k < |xs|
    ensures xs[j].accepted <= xs[k].accepted && xs[j].freed <= xs[k].freed
  {
    hide Insert, Keep, Gone, AllRemoved, AllDrained;
    if j < k {
      RecordsGrow(xs, ts, j, k - 1);
      assert xs[k - 1 + 1] == Next(xs[k - 1], ts[k - 1]);
    }
  }

  /** A message that waits now and was accepted before an earlier take was waiting then. */
  lemma WaitedThen(xs: seq<Looper>, ts: seq<Step>, j: nat, k: nat, a: Message)
    requires IsRun(xs, ts) && j <= k < |xs| && a in xs[k].list && a.number < |xs[j].accepted| && xs[j].current.None?
    ensures a in xs[j].list
  {
    hide Inv, Messages, IsRun;
    RunInv(xs, ts, j);
    RunInv(xs, ts, k);
    RecordsGrow(xs, ts, j, k);
    FreedAtMostOnce(xs, ts, k, a);
    AcceptedAt(xs[k], a);
    assert a in xs[j].accepted by { assert xs[j].accepted[a.number] == a; }
    if a in Messages(xs[j].freed) { FreedGrows(xs[j].freed, xs[k].freed, a); }
    SomewhereThen(xs[j], a);
  }

  lemma AcceptedAt(x: Looper, a: Message)
    requires Inv(x) && a in x.list
    ensures a.number < |x.accepted| && x.accepted[a.number] == a
  {
    ListIsAccepted(x, a);
  }

  lemma FreedGrows(before: seq<Freed>, after: seq<Freed>, a: Message)
    requires before <= after && a in Messages(before)
    ensures a in Messages(after)
  {
    var i :| 0 <= i < |before| && Messages(before)[i] == a;
    assert Messages(after)[i] == a;
  }

  lemma SomewhereThen(x: Looper, a: Message)
    requires Inv(x) && x.current.None? && a in x.accepted && a !in Messages(x.freed)
    ensures a in x.list
  {
    assert a in multiset(x.accepted);
    assert a !in multiset(Messages(x.freed));
    assert a in multiset(x.list);
  }

  /** If b is taken before a although a goes before b, then a was accepted only after b was taken. */
  lemma HandledInOrder(xs: seq<Looper>, ts: seq<Step>, j: nat, k: nat)
    requires IsRun(xs, ts) && j < k < |ts| && ts[j].Take? && ts[k].Take?
    requires Enabled(xs[j], ts[j]) && Enabled(xs[k], ts[k])
    ensures var b, a := xs[j].list[0], xs[k].list[0]; Before(a, b) ==> a.number >= |xs[j].accepted|
  {
    var b, a := xs[j].list[0], xs[k].list[0];
    if Before(a, b) && a.number < |xs[j].accepted| {
      RunInv(xs, ts, j);
      WaitedThen(xs, ts, j, k, a);
      assert false;
    }
  }

  /** No message is ever freed twice. */
  lemma FreedAtMostOnce(xs: seq<Looper>, ts: seq<Step>, j: nat, m: Message)
    requires IsRun(xs, ts) && j < |xs|
    ensures multiset(Messages(xs[j].freed))[m] <= 1
    ensures m in Messages(xs[j].freed) ==> m in xs[j].accepted && m !in xs[j].list && Held(xs[j].current)[m] == 0
  {
    RunInv(xs, ts, j);
    AcceptedOnce(xs[j].accepted, m);
    var x := xs[j];
    assert multiset(x.list)[m] + Held(x.current)[m] + multiset(Messages(x.freed))[m] == multiset(x.accepted)[m];
    if m in Messages(x.freed) {
      assert multiset(Messages(x.freed))[m] >= 1;
      assert m in multiset(x.accepted);
    }
  }

  lemma {:induction false} AcceptedOnce(ms: seq<Message>, m: Message)
    requires Numbered(ms)
    ensures multiset(ms)[m] <= 1
  {
    if ms != [] {
      var n := |ms| - 1;
      assert ms == ms[..n] + [ms[n]];
      AcceptedOnce(ms[..n], m);
      assert forall i :: 0 <= i < n ==> ms[..n][i].number == i;
      assert ms[n] !in ms[..n];
    }
  }

  /** Once the looper is destroyed every message it ever accepted has been freed exactly once. */
  lemma DestroyedFreesAll(xs: seq<Looper>, ts: seq<Step>, j: nat, m: Message)
    requires IsRun(xs, ts) && j < |xs| && xs[j].drained
    ensures multiset(Messages(xs[j].freed))[m] == (if m in xs[j].accepted then 1 else 0)
  {
    RunInv(xs, ts, j);
    AcceptedOnce(xs[j].accepted, m);
    assert multiset(Messages(xs[j].freed)) == multiset(xs[j].accepted);
  }
}

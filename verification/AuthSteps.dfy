/** Every step of the joined sessions keeps the invariant. */
module AuthSteps {
  import opened Session
  import opened SessionRuns
  import opened AuthProtocol
  import opened AuthSummaries
  import opened AuthInvariant

  // ------------------------------------------------------ the client handles a message

  /** How a view changes when the client handles a message. */
  predicate ClientMoves(v: View, v': View, m: Msg, o: Outcome)
  {
    && v'.c == o.s && v'.s == v.s && v'.started == (v.started || StartHichain in o.out)
    && v'.tc.Plus(One(m)) == v.tc.Plus(Count(Posted(o.out)))
    && v'.ts == v.ts.Plus(Count(Sent(o.out)))
  }

  /** The message at the head of a queue is in the tally of its pipe. */
  predicate Holds(t: Tally, m: Msg)
  {
    t.ids >= One(m).ids && t.infos >= One(m).infos && t.acks >= One(m).acks && t.keys >= One(m).keys
  }

  /** What fast auth posts holds one session key and nothing else that counts. */
  lemma CountFast()
    ensures Count([SaveSessionKey, AuthFinish]) == Tally(0, 0, 0, 1)
  {
    hide Count;
    CountShort([SaveSessionKey, AuthFinish]);
  }

  lemma CountNone()
    ensures Count([]) == Tally(0, 0, 0, 0)
  {
  }

  lemma ClientTakesId(v: View, v': View, m: Msg, o: Outcome)
    requires Roles(v) && Roles(v') && Core(v) && ClientMoves(v, v', m, o) && Holds(v.tc, m)
    requires m.RecvDeviceId? && ClientProceeds(v.c, o)
    ensures Core(v')
  {
    hide Count, Sent, Posted, One;
    CountFast();
    CountNone();
    assert One(m) == Tally(1, 0, 0, 0) by { OneId(m); }
  }

  lemma OneId(m: Msg)
    requires m.RecvDeviceId?
    ensures One(m) == Tally(1, 0, 0, 0)
  {
  }

  /** Going back is harmless unless the server already went on. */
  lemma ClientReturns(v: View, v': View, m: Msg, o: Outcome)
    requires Roles(v) && Roles(v') && Core(v) && ClientMoves(v, v', m, o) && Holds(v.tc, m)
    requires m.RecvDeviceId? && !v.c.isDead && ClientGoesBack(v.c, o)
    ensures if v.s.phase == SyncDeviceInfo then Stuck(v') else Core(v') && v'.tc.infos == 0
  {
    hide Count, Sent, Posted;
    CountShort(Posted(o.out));
    CountShort(Sent(o.out));
  }

  lemma ClientSavesKey(v: View, v': View, m: Msg, o: Outcome)
    requires Roles(v) && Roles(v') && Core(v) && ClientMoves(v, v', m, o) && Holds(v.tc, m)
    requires m.SaveSessionKey? && v.c.phase == DeviceAuth && KeyDone(v.c, o)
    ensures Core(v')
  {
    hide Count, Sent, Posted;
    CountShort(Posted(o.out));
    CountShort(Sent(o.out));
  }

  lemma ClientTakesInfo(v: View, v': View, m: Msg, o: Outcome)
    requires Roles(v) && Roles(v') && Core(v) && ClientMoves(v, v', m, o) && Holds(v.tc, m)
    requires m.RecvDeviceInfo?
    requires if v.c.phase == SyncDeviceInfo then InfoDone(v.c, o) else v.c.phase == DeviceAuth && EarlyKept(v.c, o)
    ensures Core(v')
  {
    hide Count, Sent, Posted;
    CountShort(Posted(o.out));
    CountShort(Sent(o.out));
  }

  lemma ClientTakesAck(v: View, v': View, m: Msg, o: Outcome)
    requires Roles(v) && Roles(v') && Core(v) && ClientMoves(v, v', m, o) && Holds(v.tc, m)
    requires m.RecvCloseAck? && v.c.phase == SyncDeviceInfo && AckDone(v.c, o)
    ensures Core(v')
  {
    hide Count, Sent, Posted;
    CountShort(Posted(o.out));
    CountShort(Sent(o.out));
  }

  /** What a live session may leave unhandled. */
  predicate Ignorable(phase: Phase, m: Msg)
  {
    && !m.RecvDeviceInfo? && (m.RecvDeviceId? ==> phase == SyncDeviceInfo)
    && (m.RecvCloseAck? ==> phase != SyncDeviceInfo)
  }

  /** Nothing that counts is ever met by a client that ignores it. */
  lemma ClientIgnores(v: View, v': View, m: Msg, o: Outcome)
    requires Roles(v) && Roles(v') && Core(v) && ClientMoves(v, v', m, o) && Holds(v.tc, m)
    requires Silent(v.c, o)
    requires v.c.isDead || Ignorable(v.c.phase, m)
    ensures Core(v')
  {
    hide Count, Sent, Posted;
    CountShort(Posted(o.out));
    CountShort(Sent(o.out));
  }

  /** The client handles any message without failing. */
  lemma ClientCore(v: View, v': View, i: Input, o: Outcome)
    requires Roles(v) && Roles(v') && Core(v) && ClientMoves(v, v', i.m, o) && Holds(v.tc, i.m)
    requires Summary(v.c, i, o)
    requires v.c.phase == SyncDeviceId ==> !i.m.RecvDeviceInfo?
    ensures Stuck(v') || (Core(v') && (TakesBackEdge(v.c, i) ==> v'.tc.infos == 0))
  {
    hide Core, Stuck, Roles, ClientMoves, Holds, Silent, ClientProceeds, ClientGoesBack, KeyDone, InfoDone, AckDone,
      EarlyKept, ServerAnswers, Sent, Posted;
    assert !v.c.isServer by { IsClient(v); }
    if v.c.isDead {
      ClientIgnores(v, v', i.m, o) by { DeadIsSilent(v.c, o); }
    } else if i.m.RecvDeviceId? && v.c.phase != SyncDeviceInfo {
      if TakesBackEdge(v.c, i) { ClientReturns(v, v', i.m, o); } else { ClientTakesId(v, v', i.m, o); }
    } else if i.m.SaveSessionKey? && v.c.phase == DeviceAuth && KeyDone(v.c, o) {
      ClientSavesKey(v, v', i.m, o);
    } else if i.m.RecvDeviceInfo? {
      ClientTakesInfo(v, v', i.m, o);
    } else if i.m.RecvCloseAck? && v.c.phase == SyncDeviceInfo {
      ClientTakesAck(v, v', i.m, o);
    } else {
      ClientIgnores(v, v', i.m, o);
    }
  }

  lemma IsClient(v: View)
    requires Roles(v)
    ensures !v.c.isServer && v.s.isServer
  {
  }

  lemma DeadIsSilent(s: Session, o: Outcome)
    requires s.isDead && o.s == s && Sent(o.out) == [] && Posted(o.out) == [] && StartHichain !in o.out
    ensures Silent(s, o)
  {
  }

  // ------------------------------------------------------ the server handles a message

  /** How a view changes when the server handles a message. */
  predicate ServerMoves(v: View, v': View, m: Msg, o: Outcome)
  {
    && v'.s == o.s && v'.c == v.c && v'.started == v.started
    && v'.ts.Plus(One(m)) == v.ts.Plus(Count(Posted(o.out)))
    && v'.tc == v.tc.Plus(Count(Sent(o.out)))
  }

  /** What the server sends leaves the messages on the way to the client in order. */
  predicate Orderly(v: View, o: Outcome)
  {
    v.c.phase == SyncDeviceId ==> v.tc.ids > 0 || Count(Sent(o.out)).infos == 0
  }

  lemma ServerTakesId(v: View, v': View, m: Msg, o: Outcome)
    requires Roles(v) && Roles(v') && Core(v) && ServerMoves(v, v', m, o) && Holds(v.ts, m)
    requires m.RecvDeviceId? && ServerAnswers(v.s, o)
    ensures Core(v') && Orderly(v, o)
  {
    hide Count, Sent, Posted, One;
    CountFast();
    CountNone();
    OneId(m);
    CountShort(Sent(o.out));
    OneId(Sent(o.out)[0]);
  }

  /** A server that saves a key while the client's second device id is on its way leaves it behind. */
  lemma ServerSavesKey(v: View, v': View, m: Msg, o: Outcome)
    requires Roles(v) && Roles(v') && Core(v) && ServerMoves(v, v', m, o) && Holds(v.ts, m)
    requires m.SaveSessionKey? && v.s.phase == DeviceAuth && KeyDone(v.s, o)
    ensures if v.ts.ids > 0 then Stuck(v') else Core(v') && Orderly(v, o)
  {
    hide Count, Sent, Posted;
    CountShort(Posted(o.out));
    CountShort(Sent(o.out));
  }

  lemma ServerTakesInfo(v: View, v': View, m: Msg, o: Outcome)
    requires Roles(v) && Roles(v') && Core(v) && ServerMoves(v, v', m, o) && Holds(v.ts, m)
    requires m.RecvDeviceInfo? && !v.s.isDead
    requires if v.s.phase == SyncDeviceInfo then InfoDone(v.s, o) else v.s.phase == DeviceAuth && EarlyKept(v.s, o)
    ensures Core(v') && Orderly(v, o)
  {
    hide Count, Sent, Posted;
    CountShort(Posted(o.out));
    CountShort(Sent(o.out));
  }

  lemma ServerTakesAck(v: View, v': View, m: Msg, o: Outcome)
    requires Roles(v) && Roles(v') && Core(v) && ServerMoves(v, v', m, o) && Holds(v.ts, m)
    requires m.RecvCloseAck? && v.s.phase == SyncDeviceInfo && AckDone(v.s, o)
    ensures Core(v') && Orderly(v, o)
  {
    hide Count, Sent, Posted;
    CountShort(Posted(o.out));
    CountShort(Sent(o.out));
  }

  /** Device info reaches a server only after its own device id went out. */
  lemma ServerMeetsNoInfo(v: View, m: Msg)
    requires Roles(v) && Core(v) && Holds(v.ts, m)
    ensures m.RecvDeviceInfo? ==> v.s.phase != SyncDeviceId
  {
  }

  /** Nothing that counts is ever met by a server that ignores it. */
  lemma ServerIgnores(v: View, v': View, m: Msg, o: Outcome)
    requires Roles(v) && Roles(v') && Core(v) && ServerMoves(v, v', m, o) && Holds(v.ts, m)
    requires Silent(v.s, o)
    requires v.s.isDead || Ignorable(v.s.phase, m)
    ensures Core(v') && Orderly(v, o)
  {
    hide Count, Sent, Posted;
    CountShort(Posted(o.out));
    CountShort(Sent(o.out));
  }

  /** The server handles any message without failing; what it sends keeps the client's messages in order. */
  lemma ServerCore(v: View, v': View, i: Input, o: Outcome)
    requires Roles(v) && Roles(v') && Core(v) && ServerMoves(v, v', i.m, o) && Holds(v.ts, i.m)
    requires Summary(v.s, i, o)
    ensures Stuck(v') || (Core(v') && Orderly(v, o))
  {
    hide Core, Stuck, Roles, ServerMoves, Holds, Silent, ClientProceeds, ClientGoesBack, KeyDone, InfoDone, AckDone,
      EarlyKept, ServerAnswers, Sent, Posted, Orderly;
    assert v.s.isServer by { IsClient(v); }
    ServerMeetsNoInfo(v, i.m);
    if v.s.isDead {
      ServerIgnores(v, v', i.m, o) by { DeadIsSilent(v.s, o); }
    } else if i.m.RecvDeviceId? && v.s.phase != SyncDeviceInfo {
      ServerTakesId(v, v', i.m, o);
    } else if i.m.SaveSessionKey? && v.s.phase == DeviceAuth && KeyDone(v.s, o) {
      ServerSavesKey(v, v', i.m, o);
    } else if i.m.RecvDeviceInfo? {
      ServerTakesInfo(v, v', i.m, o);
    } else if i.m.RecvCloseAck? && v.s.phase == SyncDeviceInfo {
      ServerTakesAck(v, v', i.m, o);
    } else {
      ServerIgnores(v, v', i.m, o);
    }
  }

  // ------------------------------------------------------ once stuck

  lemma ClientStaysStuck(v: View, v': View, i: Input, o: Outcome)
    requires Roles(v) && Stuck(v) && ClientMoves(v, v', i.m, o) && Holds(v.tc, i.m) && Summary(v.c, i, o)
    ensures Stuck(v')
  {
    hide Count, Sent, Posted, TakesBackEdge;
    CountShort(Posted(o.out));
    CountShort(Sent(o.out));
  }

  lemma ServerStaysStuck(v: View, v': View, i: Input, o: Outcome)
    requires Roles(v) && Stuck(v) && ServerMoves(v, v', i.m, o) && Holds(v.ts, i.m) && Summary(v.s, i, o)
    ensures Stuck(v')
  {
    hide Count, Sent, Posted, TakesBackEdge;
    CountShort(Posted(o.out));
    CountShort(Sent(o.out));
  }
}

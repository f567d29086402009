/** What holds of one session over every sequence of messages and every behaviour of the world. */
module SessionRuns {
  import opened Session

  datatype Input = Input(m: Msg, w: World)

  /** Everything a session does from its start: the entry action, then one message after another. */
  function Play(start: Outcome, ins: seq<Input>): Outcome
  {
    if ins == [] then start
    else
      var p := Play(start, ins[..|ins| - 1]);
      var i := ins[|ins| - 1];
      Process(p.s, i.m, i.w).After(p.out)
  }

  /** A session just created and started. */
  ghost predicate Started(o: Outcome)
  {
    exists isServer, link, knowsPeer, w :: o == EnterSyncDeviceId(Create(isServer, link, knowsPeer), w)
  }

  function Completions(out: seq<Effect>): nat
  {
    if out == [] then 0 else Completions(out[..|out| - 1]) + if out[|out| - 1].Completed? then 1 else 0
  }

  lemma {:induction false} CompletionsAdd(a: seq<Effect>, b: seq<Effect>)
    ensures Completions(a + b) == Completions(a) + Completions(b)
  {
    if b == [] {
      assert a + b == a;
    } else {
      var b' := b[..|b| - 1];
      assert (a + b)[..|a + b| - 1] == a + b';
      CompletionsAdd(a, b');
    }
  }

  // ------------------------------------------------------ invariant of one session

  /** Recording both node info and close ack means the auth manager was told, or the session failed. */
  predicate Sane(s: Session)
  {
    && (s.nodeInfo && s.closeAck && !s.isDead ==> s.passed)
    && (s.nodeInfo || s.closeAck ==> s.phase.SyncDeviceInfo?)
    && (s.nodeInfo && s.link.Wifi? ==> s.closeAck)
    && (s.phase.SyncDeviceInfo? ==> s.keySaved && !s.early)
    && (s.keySaved && !s.isDead ==> s.phase.SyncDeviceInfo?)
    && (s.passed ==> s.nodeInfo && s.closeAck)
  }

  /** What one message may do to a session, whatever the handler. */
  predicate StepOk(s: Session, m: Msg, o: Outcome)
  {
    && Sane(o.s)
    && Completions(o.out) == (if !s.isDead && o.s.isDead then 1 else 0)
    && (s.isDead ==> o == Outcome(s, []))
    && (Completed(Ok) in o.out ==> EndsWell(s, m, o))
    && (o.s.passed ==> s.passed || AuthPassed in o.out)
  }

  /** The outcome closes the session with SOFTBUS_OK. */
  predicate EndsWell(s: Session, m: Msg, o: Outcome)
  {
    && o.s.isDead && o.s.nodeInfo && o.s.closeAck && o.s.passed && (o.s.authFinished || m.DeviceDisconnected?)
    && o.out != [] && o.out[|o.out| - 1] == Completed(Ok) && Completed(Ok) !in o.out[..|o.out| - 1]
    && (s.passed || AuthPassed in o.out[..|o.out| - 1])
  }

  /** Effects that contain no completion. */
  predicate NoneCompleted(out: seq<Effect>)
  {
    forall e :: e in out ==> !e.Completed?
  }

  lemma {:induction false} NoneCounted(out: seq<Effect>)
    requires NoneCompleted(out)
    ensures Completions(out) == 0
  {
    if out != [] { NoneCounted(out[..|out| - 1]); }
  }

  /** A list of effects around a single completion. */
  lemma OneCounted(before: seq<Effect>, r: Result, after: seq<Effect>)
    requires NoneCompleted(before) && NoneCompleted(after)
    ensures Completions(before + [Completed(r)] + after) == 1
  {
    NoneCounted(before);
    NoneCounted(after);
    assert Completions([Completed(r)]) == 1 by { assert [Completed(r)][..0] == []; }
    CompletionsAdd(before, [Completed(r)]);
    CompletionsAdd(before + [Completed(r)], after);
  }

  /** An outcome that neither passes nor succeeds. */
  predicate Plain(s: Session, o: Outcome)
  {
    && o.s.passed == s.passed
    && Completions(o.out) == (if o.s.isDead then 1 else 0)
    && Completed(Ok) !in o.out
  }

  lemma CompleteIsPlain(s: Session, r: Result)
    requires r != Ok
    ensures Plain(s, Complete(s, r))
  {
    OneCounted([], r, []);
    assert [] + [Completed(r)] + [] == [Completed(r)];
  }

  lemma QuietIsPlain(s: Session, out: seq<Effect>)
    requires !s.isDead && NoneCompleted(out)
    ensures Plain(s, Outcome(s, out))
  {
    NoneCounted(out);
  }

  lemma PostDeviceIdOk(s: Session, w: World)
    requires !s.isDead
    ensures var o := PostDeviceId(s, w);
      && Plain(s, o)
      && o.s == s.(fast := s.fast && w.packFast, isDead := !w.postOk)
      && (w.postOk ==> NoneCompleted(o.out))
  {
    var s1 := s.(fast := s.fast && w.packFast);
    if w.postOk {
      QuietIsPlain(s1, PostDeviceId(s, w).out);
    } else {
      CompleteIsPlain(s1, SyncDevIdFail);
    }
  }

  lemma AfterDeviceIdOk(s: Session, w: World)
    requires Sane(s) && !s.isDead && s.phase.DeviceAuth?
    ensures var o := AfterDeviceId(s, w); Sane(o.s) && Plain(s, o)
  {
    hide PostDeviceId, Plain, Complete, Completions;
    CompleteIsPlain(s, SyncDevIdFail);
    CompleteIsPlain(s, HichainAuthFail);
    QuietIsPlain(s, [PostSelf(SaveSessionKey), PostSelf(AuthFinish)]);
    QuietIsPlain(s, []);
    QuietIsPlain(s, [StartHichain]);
    var back := s.(idType := Udid, phase := SyncDeviceId);
    PostDeviceIdOk(back, w);
    PlainFrom(back, s, PostDeviceId(back, w));
    CompleteSane(s, SyncDevIdFail);
    CompleteSane(s, HichainAuthFail);
  }

  lemma PlainFrom(s: Session, s': Session, o: Outcome)
    requires s'.passed == s.passed && Plain(s, o)
    ensures Plain(s', o)
  {
  }

  lemma CompleteSane(s: Session, r: Result)
    requires Sane(s)
    ensures Sane(Complete(s, r).s)
  {
  }

  lemma AnswerDeviceIdOk(s: Session, w: World)
    requires Sane(s) && !s.isDead && !s.phase.SyncDeviceInfo?
    ensures var o := AnswerDeviceId(s, w); Sane(o.s) && Plain(s, o)
  {
    hide AfterDeviceId, PostDeviceId;
    if s.isServer {
      PostDeviceIdOk(s, w);
      if w.postOk {
        var sent := PostDeviceId(s, w);
        var s2 := sent.s.(phase := DeviceAuth);
        AfterDeviceIdOk(s2, w);
        CompletionsAdd(sent.out, AfterDeviceId(s2, w).out);
      }
    } else {
      AfterDeviceIdOk(s.(phase := DeviceAuth), w);
    }
  }

  lemma DeviceIdOk(s: Session, m: Msg, w: World)
    requires Sane(s) && !s.isDead && m.RecvDeviceId? && !s.phase.SyncDeviceInfo?
    ensures var o := HandleDeviceId(s, m, w); Sane(o.s) && Plain(s, o)
  {
    hide AnswerDeviceId, SetExchange;
    var x := SetExchange(s, m.idType, w.lookup);
    CompleteIsPlain(s, SyncDevIdFail);
    CompleteIsPlain(s.(idType := x.idType), SyncDevIdFail);
    AnswerDeviceIdOk(Understood(s, x.idType, m.fastTag && w.fastKey), w);
  }

  lemma SaveKeyOk(s: Session, w: World)
    requires Sane(s) && !s.isDead && s.phase.DeviceAuth?
    ensures var o := HandleSaveKey(s, w); Sane(o.s) && Plain(s, o)
  {
    hide KeySavedEffects;
    NoneCounted([]);
    OneCounted([SetSessionKey], SyncDevInfoFail, []);
    assert [SetSessionKey] + [Completed(SyncDevInfoFail)] + [] == [SetSessionKey] + [Completed(SyncDevInfoFail)];
    KeySavedQuiet(s, w);
    NoneCounted(KeySavedEffects(s, w));
  }

  lemma KeySavedQuiet(s: Session, w: World)
    ensures NoneCompleted(KeySavedEffects(s, w))
  {
  }

  /** Passing and then perhaps finishing, after the effects already made. */
  predicate Passes(s: Session, o: Outcome)
  {
    && o.s == s.(passed := true, isDead := s.authFinished)
    && Completions(o.out) == (if s.authFinished then 1 else 0)
    && AuthPassed in o.out
    && (s.authFinished ==>
        && o.out != [] && o.out[|o.out| - 1] == Completed(Ok)
        && Completed(Ok) !in o.out[..|o.out| - 1] && AuthPassed in o.out[..|o.out| - 1])
    && (!s.authFinished ==> Completed(Ok) !in o.out)
  }

  lemma PassAndFinishOk(s: Session, first: seq<Effect>)
    requires !s.isDead && s.nodeInfo && s.closeAck && NoneCompleted(first)
    ensures Passes(s, PassAndFinish(s, first))
  {
    var front := first + [AuthPassed];
    assert front[|first|] == AuthPassed;
    if s.authFinished {
      OneCounted(front, Ok, []);
      var out := front + [Completed(Ok)];
      assert out + [] == out && out[..|out| - 1] == front;
    } else {
      NoneCounted(front);
      assert front + [] == front;
    }
  }

  lemma PassesOk(s: Session, s1: Session, m: Msg, o: Outcome)
    requires Sane(s) && !s.isDead && s.phase.SyncDeviceInfo?
    requires s1 == s.(nodeInfo := true, closeAck := true) && Passes(s1, o)
    ensures StepOk(s, m, o)
  {
  }

  lemma DeviceInfoOk(s: Session, m: Msg, w: World)
    requires Sane(s) && !s.isDead && s.phase.SyncDeviceInfo?
    ensures StepOk(s, m, HandleDeviceInfo(s, w))
  {
    if !w.infoOk {
      CompleteIsPlain(s, UnpackDevInfoFail);
    } else if s.link.Wifi? {
      AcceptWifiOk(s, m, w);
    } else {
      AcceptOk(s, m, w);
    }
  }

  lemma AcceptWifiOk(s: Session, m: Msg, w: World)
    requires Sane(s) && !s.isDead && s.phase.SyncDeviceInfo?
    ensures StepOk(s, m, AcceptInfoWifi(s.(nodeInfo := true, closeAck := true), w))
  {
    hide PassAndFinish, StepOk;
    var s1 := s.(nodeInfo := true, closeAck := true);
    if s.isServer && !w.postOk {
      CompleteIsPlain(s1, SyncDevInfoFail);
      PlainFrom(s1, s, Complete(s1, SyncDevInfoFail));
      PlainOk(s, m, Complete(s1, SyncDevInfoFail));
    } else {
      var first := if s.isServer then [SendDeviceInfo] else [];
      PassAndFinishOk(s1, first);
      PassesOk(s, s1, m, PassAndFinish(s1, first));
    }
  }

  lemma AcceptOk(s: Session, m: Msg, w: World)
    requires Sane(s) && !s.isDead && s.phase.SyncDeviceInfo? && !s.link.Wifi?
    ensures StepOk(s, m, AcceptInfo(s.(nodeInfo := true), w))
  {
    hide PassAndFinish, StepOk;
    var s1 := s.(nodeInfo := true);
    if !w.postOk {
      CompleteIsPlain(s1, SendFail);
      PlainFrom(s1, s, Complete(s1, SendFail));
      PlainOk(s, m, Complete(s1, SendFail));
    } else if s1.closeAck {
      PassAndFinishOk(s1, [SendCloseAck]);
      PassesOk(s, s1, m, PassAndFinish(s1, [SendCloseAck]));
    } else {
      QuietIsPlain(s1, [SendCloseAck]);
      PlainFrom(s1, s, Outcome(s1, [SendCloseAck]));
      PlainOk(s, m, Outcome(s1, [SendCloseAck]));
    }
  }

  lemma CloseAckOk(s: Session, m: Msg)
    requires Sane(s) && !s.isDead && s.phase.SyncDeviceInfo?
    ensures StepOk(s, m, HandleCloseAck(s))
  {
    hide PassAndFinish;
    var s1 := s.(closeAck := true);
    NoneCounted([]);
    if s1.nodeInfo { PassAndFinishOk(s1, []); }
  }

  lemma FinishOk(s: Session, m: Msg)
    requires Sane(s) && !s.isDead
    ensures StepOk(s, m, HandleAuthFinish(s))
  {
    NoneCounted([]);
    OneCounted([], Ok, []);
    assert [] + [Completed(Ok)] + [] == [Completed(Ok)];
    assert [Completed(Ok)][..0] == [];
  }

  lemma CommonOk(s: Session, m: Msg)
    requires Sane(s) && !s.isDead
    ensures StepOk(s, m, HandleCommon(s, m))
  {
    NoneCounted([]);
    CompleteIsPlain(s, TimedOut);
    CompleteIsPlain(s, NotTrusted);
    OneCounted([], Ok, []);
    assert [] + [Completed(Ok)] + [] == [Completed(Ok)];
    assert [Completed(Ok)][..0] == [];
    OneCounted([], Disconnected, [CancelHichain]);
    assert [] + [Completed(Disconnected)] + [CancelHichain] == [Completed(Disconnected)] + [CancelHichain];
  }

  lemma PlainOk(s: Session, m: Msg, o: Outcome)
    requires !s.isDead && Grows(s, o.s) && Sane(o.s) && Plain(s, o)
    ensures StepOk(s, m, o)
  {
  }

  /** Every message keeps a session sane and completes it at most once. */
  lemma ProcessOk(s: Session, m: Msg, w: World)
    requires Sane(s)
    ensures StepOk(s, m, Process(s, m, w))
  {
    if s.isDead {
      NoneCounted([]);
    } else {
      match m {
        case RecvDeviceId(_, _) =>
          if s.phase.SyncDeviceInfo? { CommonOk(s, m); }
          else { DeviceIdOk(s, m, w); PlainOk(s, m, HandleDeviceId(s, m, w)); }
        case RecvAuthData =>
          CommonOk(s, m);
          CompleteIsPlain(s, HichainProcessFail);
          QuietIsPlain(s, []);
          PlainOk(s, m, HandleAuthData(s, w));
        case SaveSessionKey =>
          CommonOk(s, m);
          if s.phase.DeviceAuth? { SaveKeyOk(s, w); PlainOk(s, m, HandleSaveKey(s, w)); }
        case AuthError =>
          CommonOk(s, m);
          CompleteIsPlain(s, HichainAuthError);
        case RecvDeviceInfo =>
          CommonOk(s, m);
          if s.phase.SyncDeviceInfo? { DeviceInfoOk(s, m, w); }
          NoneCounted([]);
        case RecvCloseAck =>
          CommonOk(s, m);
          if s.phase.SyncDeviceInfo? { CloseAckOk(s, m); }
        case AuthFinish =>
          CommonOk(s, m);
          FinishOk(s, m);
        case _ => CommonOk(s, m);
      }
    }
  }

  lemma {:induction false} StartSane(o: Outcome)
    requires Started(o)
    ensures Sane(o.s) && Completions(o.out) == (if o.s.isDead then 1 else 0)
    ensures o.s.isDead ==> Completed(Ok) !in o.out
    ensures AuthPassed !in o.out && !o.s.passed
  {
    var isServer, link, knowsPeer, w :| o == EnterSyncDeviceId(Create(isServer, link, knowsPeer), w);
    PostDeviceIdOk(Create(isServer, link, knowsPeer), w);
    NoneCounted([]);
  }

  lemma {:induction false} PlaySane(start: Outcome, ins: seq<Input>)
    requires Started(start)
    ensures Sane(Play(start, ins).s)
  {
    hide Process;
    if ins == [] {
      StartSane(start);
    } else {
      PlaySane(start, ins[..|ins| - 1]);
      var i := ins[|ins| - 1];
      ProcessOk(Play(start, ins[..|ins| - 1]).s, i.m, i.w);
    }
  }

  // ------------------------------------------------------ completion

  /** A session completes at most once, and it is dead exactly when it has completed. */
  lemma {:induction false} CompletesAtMostOnce(start: Outcome, ins: seq<Input>)
    requires Started(start)
    ensures var o := Play(start, ins); Completions(o.out) == (if o.s.isDead then 1 else 0)
  {
    hide Process;
    if ins == [] {
      StartSane(start);
    } else {
      var p, i := Play(start, ins[..|ins| - 1]), ins[|ins| - 1];
      CompletesAtMostOnce(start, ins[..|ins| - 1]);
      PlaySane(start, ins[..|ins| - 1]);
      ProcessOk(p.s, i.m, i.w);
      CompletionsAdd(p.out, Process(p.s, i.m, i.w).out);
    }
  }

  /** After its death no message changes a session or makes it act. */
  lemma {:induction false} DeadIsFrozen(start: Outcome, ins: seq<Input>, more: seq<Input>)
    requires Play(start, ins).s.isDead
    ensures Play(start, ins + more) == Play(start, ins)
  {
    if more == [] {
      assert ins + more == ins;
    } else {
      var all := ins + more;
      assert all[..|all| - 1] == ins + more[..|more| - 1];
      DeadIsFrozen(start, ins, more[..|more| - 1]);
    }
  }

  /** Either Hichain reported its end, or the link dropped. */
  predicate Ended(s: Session, ins: seq<Input>)
  {
    s.authFinished || exists i: nat :: i < |ins| && ins[i].m.DeviceDisconnected?
  }

  /** The session succeeded: everything it needs is recorded, and the auth manager was told earlier. */
  ghost predicate SucceedsRightly(o: Outcome, ins: seq<Input>)
  {
    && (forall j: nat :: j < |o.out| && o.out[j] == Completed(Ok) ==> AuthPassed in o.out[..j])
    && (Completed(Ok) in o.out ==> o.s.isDead && o.s.nodeInfo && o.s.closeAck && Ended(o.s, ins))
    && (o.s.passed ==> AuthPassed in o.out)
  }

  /** SOFTBUS_OK is reported only with node info and close ack recorded, and after AuthManagerSetAuthPassed. */
  lemma {:induction false} SuccessIsEarned(start: Outcome, ins: seq<Input>)
    requires Started(start)
    ensures SucceedsRightly(Play(start, ins), ins)
  {
    hide Process;
    if ins == [] {
      StartSane(start);
    } else {
      var ins' := ins[..|ins| - 1];
      var p, i := Play(start, ins'), ins[|ins| - 1];
      SuccessIsEarned(start, ins');
      PlaySane(start, ins');
      SuccessExtends(p, ins', i);
      assert ins' + [i] == ins;
    }
  }

  lemma NotBefore(out: seq<Effect>, e: Effect, k: nat)
    requires k < |out| && out[k] == e && e !in out[..|out| - 1]
    ensures k == |out| - 1
  {
    var front := out[..|out| - 1];
    assert forall i: nat :: i < |front| ==> front[i] != e && front[i] == out[i];
  }

  lemma {:induction false} SuccessExtends(p: Outcome, ins: seq<Input>, i: Input)
    requires Sane(p.s) && SucceedsRightly(p, ins)
    ensures SucceedsRightly(Process(p.s, i.m, i.w).After(p.out), ins + [i])
  {
    hide Process;
    var o := Process(p.s, i.m, i.w);
    ProcessOk(p.s, i.m, i.w);
    var out := p.out + o.out;
    forall j: nat | j < |out| && out[j] == Completed(Ok) ensures AuthPassed in out[..j] {
      if j < |p.out| {
        assert out[..j] == p.out[..j];
      } else {
        var k := j - |p.out|;
        assert o.out[k] == Completed(Ok);
        NotBefore(o.out, Completed(Ok), k);
        assert out[..j] == p.out + o.out[..k];
      }
    }
    var all := ins + [i];
    if Completed(Ok) in out {
      if Completed(Ok) in o.out {
        if i.m.DeviceDisconnected? { assert all[|ins|].m.DeviceDisconnected?; }
      } else {
        assert Completed(Ok) in p.out;
        if !p.s.authFinished {
          var k: nat :| k < |ins| && ins[k].m.DeviceDisconnected?;
          assert all[k].m.DeviceDisconnected?;
        }
      }
    }
  }

  // ------------------------------------------------------ exchange id type and phases

  function IdRank(t: IdType): nat
  {
    if t == NetworkId then 2 else if t == ExchangeFail then 1 else 0
  }

  /** The client returns to the first state because the id exchange failed. */
  predicate TakesBackEdge(s: Session, i: Input)
  {
    && !s.isDead && !s.isServer && i.m.RecvDeviceId? && s.phase != SyncDeviceInfo
    && i.w.parseOk && SetExchange(s, i.m.idType, i.w.lookup) == Exchange(true, ExchangeFail)
    && !(i.m.fastTag && i.w.fastKey)
  }

  lemma AfterDeviceIdDescends(s: Session, w: World)
    requires s.phase.DeviceAuth? && !s.isDead
    ensures var s' := AfterDeviceId(s, w).s; var back := !s.isServer && !s.fast && s.idType == ExchangeFail;
      && s'.idType == (if back then Udid else s.idType)
      && s'.phase == (if back then SyncDeviceId else DeviceAuth)
  {
  }

  /** A client's id type only descends; a server takes a network id on exactly if it finds the peer by it. */
  lemma ExchangeDescends(s: Session, given: WireIdType, lookup: Lookup)
    ensures !s.isServer ==> IdRank(SetExchange(s, given, lookup).idType) <= IdRank(s.idType)
    ensures s.isServer && given == Given(NetworkId) ==>
      SetExchange(s, given, lookup) == Exchange(!lookup.CopyFailed?, if lookup.Found? then NetworkId else ExchangeFail)
    ensures given.Absent? || given == Given(Udid) ==> SetExchange(s, given, lookup) == Exchange(true, Udid)
  {
  }

  /** The session HandleDeviceId goes on with once the message is understood. */
  function Reads(s: Session, i: Input): Session
    requires i.m.RecvDeviceId?
  {
    Understood(s, SetExchange(s, i.m.idType, i.w.lookup).idType, i.m.fastTag && i.w.fastKey)
  }

  lemma DeviceIdRead(s: Session, i: Input)
    requires i.m.RecvDeviceId? && i.w.parseOk && SetExchange(s, i.m.idType, i.w.lookup).ok
    ensures HandleDeviceId(s, i.m, i.w) == AnswerDeviceId(Reads(s, i), i.w)
  {
    hide AnswerDeviceId, SetExchange;
  }

  lemma DeviceIdRejected(s: Session, i: Input)
    requires i.m.RecvDeviceId? && (!i.w.parseOk || !SetExchange(s, i.m.idType, i.w.lookup).ok)
    ensures var s' := HandleDeviceId(s, i.m, i.w).s;
      && s'.phase == s.phase && s'.isDead
      && s'.idType == (if i.w.parseOk then SetExchange(s, i.m.idType, i.w.lookup).idType else s.idType)
  {
    hide AnswerDeviceId, SetExchange;
  }

  lemma DeviceIdDescends(s: Session, i: Input)
    requires !s.isDead && i.m.RecvDeviceId? && s.phase != SyncDeviceInfo
    ensures var s' := HandleDeviceId(s, i.m, i.w).s;
      (!s.isServer ==> IdRank(s'.idType) <= IdRank(s.idType)) && s'.phase != SyncDeviceInfo
  {
    hide HandleDeviceId, AnswerDeviceId, SetExchange, Understood;
    ExchangeDescends(s, i.m.idType, i.w.lookup);
    if i.w.parseOk && SetExchange(s, i.m.idType, i.w.lookup).ok {
      DeviceIdRead(s, i);
      AnswerDescends(Reads(s, i), i.w);
    } else {
      DeviceIdRejected(s, i);
    }
  }

  lemma DeviceIdBackEdge(s: Session, i: Input)
    requires !s.isDead && i.m.RecvDeviceId? && s.phase != SyncDeviceInfo && !s.isServer
    ensures var s' := HandleDeviceId(s, i.m, i.w).s;
      && (TakesBackEdge(s, i) ==> s'.idType == Udid && s.idType != Udid && s'.phase == SyncDeviceId)
      && (s.phase != SyncDeviceId && s'.phase == SyncDeviceId ==> TakesBackEdge(s, i))
  {
    hide HandleDeviceId, AnswerDeviceId, SetExchange, Understood;
    ExchangeNotFail(s, i.m.idType, i.w.lookup);
    if i.w.parseOk && SetExchange(s, i.m.idType, i.w.lookup).ok {
      DeviceIdRead(s, i);
      AnswerDescends(Reads(s, i), i.w);
    } else {
      DeviceIdRejected(s, i);
    }
  }

  lemma ExchangeNotFail(s: Session, given: WireIdType, lookup: Lookup)
    ensures !s.isServer && s.idType == Udid ==> SetExchange(s, given, lookup).idType == Udid
  {
  }

  lemma PostKeepsId(s: Session, w: World)
    ensures var s' := PostDeviceId(s, w).s;
      s'.idType == s.idType && s'.phase == s.phase && (w.postOk ==> s'.isDead == s.isDead)
  {
  }

  lemma AnswerDescends(s: Session, w: World)
    requires !s.isDead && s.phase != SyncDeviceInfo
    ensures var s' := AnswerDeviceId(s, w).s; var back := !s.isServer && !s.fast && s.idType == ExchangeFail;
      && s'.idType == (if back then Udid else s.idType)
      && (!s.isServer ==> s'.phase == (if back then SyncDeviceId else DeviceAuth))
      && (s.isServer ==> s'.phase == DeviceAuth || s'.phase == s.phase)
  {
    hide AfterDeviceId, PostDeviceId;
    PostKeepsId(s, w);
    if s.isServer {
      if w.postOk { AfterDeviceIdDescends(PostDeviceId(s, w).s.(phase := DeviceAuth), w); }
    } else {
      AfterDeviceIdDescends(s.(phase := DeviceAuth), w);
    }
  }

  lemma ProcessDescends(s: Session, i: Input)
    ensures var s' := Process(s, i.m, i.w).s;
      && (!s.isServer ==> IdRank(s'.idType) <= IdRank(s.idType))
      && (TakesBackEdge(s, i) ==> IdRank(s'.idType) == 0 < IdRank(s.idType) && s'.phase.SyncDeviceId?)
      && (!s.isServer && !s.phase.SyncDeviceId? && s'.phase.SyncDeviceId? ==> TakesBackEdge(s, i))
      && (s.phase.SyncDeviceInfo? ==> s'.phase.SyncDeviceInfo?)
  {
    hide HandleDeviceId, HandleAuthData, HandleSaveKey, HandleDeviceInfoEarly, HandleAuthFinish,
      HandleDeviceInfo, HandleCloseAck, HandleCommon, SetExchange, Complete;
    if !s.isDead && i.m.RecvDeviceId? && !s.phase.SyncDeviceInfo? {
      DeviceIdDescends(s, i);
      if !s.isServer { DeviceIdBackEdge(s, i); }
    }
  }

  /** How often a client goes back to the first state. */
  function BackEdges(start: Outcome, ins: seq<Input>): nat
  {
    if ins == [] then 0
    else
      var before := ins[..|ins| - 1];
      BackEdges(start, before) + if TakesBackEdge(Play(start, before).s, ins[|ins| - 1]) then 1 else 0
  }

  /** Over any messages, a client's id type only descends from network id through failure to udid. */
  lemma {:induction false} IdTypeDescends(start: Outcome, ins: seq<Input>, more: seq<Input>)
    ensures Play(start, ins + more).s.isServer == Play(start, ins).s.isServer
    ensures !Play(start, ins).s.isServer ==>
      IdRank(Play(start, ins + more).s.idType) <= IdRank(Play(start, ins).s.idType)
  {
    hide Process;
    if more == [] {
      assert ins + more == ins;
    } else {
      var all, before := ins + more, more[..|more| - 1];
      assert all[..|all| - 1] == ins + before;
      IdTypeDescends(start, ins, before);
      ProcessDescends(Play(start, ins + before).s, more[|more| - 1]);
    }
  }

  /** So the edge back to the first state is taken at most once. */
  lemma {:induction false} BackEdgeAtMostOnce(start: Outcome, ins: seq<Input>)
    ensures BackEdges(start, ins) <= 1
    ensures BackEdges(start, ins) == 1 ==> IdRank(Play(start, ins).s.idType) == 0
    ensures BackEdges(start, ins) > 0 ==> !Play(start, ins).s.isServer
  {
    hide Process;
    if ins != [] {
      var before := ins[..|ins| - 1];
      BackEdgeAtMostOnce(start, before);
      ProcessDescends(Play(start, before).s, ins[|ins| - 1]);
    }
  }

  /** The last state is never left. */
  lemma {:induction false} LastStateIsFinal(start: Outcome, ins: seq<Input>, more: seq<Input>)
    requires Play(start, ins).s.phase.SyncDeviceInfo?
    ensures Play(start, ins + more).s.phase.SyncDeviceInfo?
  {
    hide Process;
    if more == [] {
      assert ins + more == ins;
    } else {
      var all, before := ins + more, more[..|more| - 1];
      assert all[..|all| - 1] == ins + before;
      LastStateIsFinal(start, ins, before);
      ProcessDescends(Play(start, ins + before).s, more[|more| - 1]);
    }
  }
}

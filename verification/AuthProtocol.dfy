/**
 A client and a server session joined by two reliable first-in first-out links. Each session has
 its own message queue, into which the link, Hichain, timers and the session itself post. One step
 delivers a message from a link into a queue, or has a session handle the head of its queue, or
 lets the outside world post an event.
 */
module AuthProtocol {
  import opened Session
  import opened SessionRuns

  datatype Side = Client | Server

  datatype Sys = Sys(
    client: Session,
    server: Session,
    clientQueue: seq<Msg>,
    serverQueue: seq<Msg>,
    toClient: seq<Msg>,
    toServer: seq<Msg>,
    started: bool,         // the client started Hichain
    failed: bool)          // some session completed with an error

  /** What the peer receives for one effect. */
  function Carries(e: Effect): seq<Msg>
  {
    match e
    case SendDeviceId(t, tag) => [RecvDeviceId(Given(t), tag)]
    case SendDeviceInfo => [RecvDeviceInfo]
    case SendCloseAck => [RecvCloseAck]
    case _ => []
  }

  /** What the peer will receive, in order, for what one session sent. */
  function Sent(out: seq<Effect>): seq<Msg>
  {
    if out == [] then [] else Carries(out[0]) + Sent(out[1..])
  }

  /** What a session posts into its own queue. */
  function Posted(out: seq<Effect>): seq<Msg>
  {
    if out == [] then []
    else (if out[0].PostSelf? then [out[0].msg] else []) + Posted(out[1..])
  }

  predicate Fails(out: seq<Effect>)
  {
    exists e :: e in out && e.Completed? && e.result != Ok
  }

  datatype Step = Deliver(side: Side) | Handle(side: Side, w: World) | Occurs(side: Side, m: Msg)

  predicate Enabled(y: Sys, t: Step)
  {
    match t
    case Deliver(Client) => y.toClient != []
    case Deliver(Server) => y.toServer != []
    case Handle(Client, _) => y.clientQueue != []
    case Handle(Server, _) => y.serverQueue != []
    case Occurs(_, m) => !m.RecvDeviceId? && !m.RecvDeviceInfo? && !m.RecvCloseAck? && (m.SaveSessionKey? ==> y.started)
  }

  function Next(y: Sys, t: Step): Sys
    requires Enabled(y, t)
  {
    match t
    case Deliver(Client) => y.(clientQueue := y.clientQueue + [y.toClient[0]], toClient := y.toClient[1..])
    case Deliver(Server) => y.(serverQueue := y.serverQueue + [y.toServer[0]], toServer := y.toServer[1..])
    case Handle(Client, w) => ClientHandles(y, Process(y.client, y.clientQueue[0], w))
    case Handle(Server, w) => ServerHandles(y, Process(y.server, y.serverQueue[0], w))
    case Occurs(Client, m) => y.(clientQueue := y.clientQueue + [m])
    case Occurs(Server, m) => y.(serverQueue := y.serverQueue + [m])
  }

  function ClientHandles(y: Sys, o: Outcome): Sys
    requires y.clientQueue != []
  {
    y.(client := o.s,
       clientQueue := y.clientQueue[1..] + Posted(o.out),
       toServer := y.toServer + Sent(o.out),
       started := y.started || StartHichain in o.out,
       failed := y.failed || Fails(o.out))
  }

  function ServerHandles(y: Sys, o: Outcome): Sys
    requires y.serverQueue != []
  {
    y.(server := o.s,
       serverQueue := y.serverQueue[1..] + Posted(o.out),
       toClient := y.toClient + Sent(o.out),
       failed := y.failed || Fails(o.out))
  }

  /** The session a step acts on, and the message it handles. */
  function Actor(y: Sys, side: Side): Session { if side.Client? then y.client else y.server }

  function Queue(y: Sys, side: Side): seq<Msg> { if side.Client? then y.clientQueue else y.serverQueue }

  /**
   The assumption on a run: early device info is neither lost when it is copied nor when it is posted
   again. Every other failure is allowed, because it ends the session that meets it.
   */
  predicate Fair(t: Step)
  {
    t.Handle? ==> t.w.dupOk && t.w.requeueOk
  }

  /** Both sessions created and started, nothing handled yet. */
  ghost predicate Init(y: Sys)
  {
    exists link, knowsPeer, w :: y == Opening(link, knowsPeer, w)
  }

  function Opening(link: Link, knowsPeer: bool, w: World): Sys
  {
    var c := EnterSyncDeviceId(Create(false, link, knowsPeer), w);
    Sys(c.s, Create(true, link, false), [], [], [], Sent(c.out), false, Fails(c.out))
  }

  ghost predicate IsRun(ys: seq<Sys>, ts: seq<Step>)
  {
    && |ys| == |ts| + 1 && Init(ys[0])
    && forall j: nat :: j < |ts| ==> IsStep(ys[j], ts[j], ys[j + 1])
  }

  predicate IsStep(y: Sys, t: Step, y': Sys)
  {
    Enabled(y, t) && y' == Next(y, t)
  }

  ghost predicate IsFairRun(ys: seq<Sys>, ts: seq<Step>)
  {
    IsRun(ys, ts) && forall j: nat :: j < |ts| ==> Fair(ts[j])
  }

  /** Nothing left to deliver or to handle. */
  predicate Quiescent(y: Sys)
  {
    y.toClient == [] && y.toServer == [] && y.clientQueue == [] && y.serverQueue == []
  }
}

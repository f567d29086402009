/**
 The looper: a list of messages by due time, one thread that takes them, and any number of threads
 that post, remove and destroy. Every step is one stretch of code under the looper's lock.
 */
module LooperSpec {
  import opened Options
  import opened Bits

  /** A message, with the number of its acceptance; numbers tell messages apart and order postings. */
  datatype Message = Message(number: nat, time: int, handler: int, what: int)

  /** The insertion loop of PostMessageAtTime: before the first message that is due strictly later. */
  function Insert(list: seq<Message>, m: Message): seq<Message>
  {
    if list == [] then [m]
    else if list[0].time > m.time then [m] + list
    else [list[0]] + Insert(list[1..], m)
  }

  /** LoopRemoveMessageCustom: what stays. */
  function Keep(list: seq<Message>, drop: Message -> bool): seq<Message>
  {
    if list == [] then []
    else Keep(list[..|list| - 1], drop) + if drop(list[|list| - 1]) then [] else [list[|list| - 1]]
  }

  /** What goes, in list order. */
  function Gone(list: seq<Message>, drop: Message -> bool): seq<Message>
  {
    if list == [] then []
    else Gone(list[..|list| - 1], drop) + if drop(list[|list| - 1]) then [list[|list| - 1]] else []
  }

  /** How a message was disposed of. */
  datatype Freed = Handled(m: Message, now: int) | Removed(m: Message) | Drained(m: Message)

  datatype Looper = Looper(
    list: seq<Message>,
    current: Option<Freed>,  // the message the loop thread is handling, with the time it was taken
    running: bool,
    stop: bool,
    drained: bool,
    msgSize: nat,            // uint32_t
    accepted: seq<Message>,
    freed: seq<Freed>)

  datatype Step =
    | Post(time: int, handler: int, what: int, ok: bool)
    | Run
    | Take(now: int)
    | Finish
    | Remove(drop: Message -> bool)
    | Destroy
    | Exit
    | Drain

  predicate Enabled(x: Looper, t: Step)
  {
    match t
    case Post(_, _, _, _) => true
    case Run => !x.running && !x.drained
    case Take(now) => x.running && !x.stop && x.current.None? && x.list != [] && now >= x.list[0].time
    case Finish => x.current.Some?
    case Remove(_) => true
    case Destroy => true
    case Exit => x.running && x.current.None?
    case Drain => x.stop && !x.running && x.current.None? && !x.drained
  }

  function Next(x: Looper, t: Step): Looper
    requires Enabled(x, t)
  {
    match t
    case Post(time, handler, what, ok) =>
      if !ok || x.stop then x
      else
        var m := Message(|x.accepted|, time, handler, what);
        x.(list := Insert(x.list, m), msgSize := Wrap32(x.msgSize + 1), accepted := x.accepted + [m])
    case Run => x.(running := true)
    case Take(now) =>
      var size: int := x.msgSize;
      x.(list := x.list[1..], msgSize := Wrap32(size - 1), current := Some(Handled(x.list[0], now)))
    case Finish => x.(freed := x.freed + [x.current.value], current := None)
    case Remove(drop) =>
      if !x.running || x.stop then x
      else
        var gone, size: int := Gone(x.list, drop), x.msgSize;
        x.(list := Keep(x.list, drop), msgSize := Wrap32(size - |gone|), freed := x.freed + AllRemoved(gone))
    case Destroy => x.(stop := true)
    case Exit => x.(running := false)
    case Drain => x.(list := [], drained := true, freed := x.freed + AllDrained(x.list))
  }

  function AllRemoved(ms: seq<Message>): (r: seq<Freed>)
    ensures |r| == |ms| && forall i :: 0 <= i < |ms| ==> r[i] == Removed(ms[i])
  {
    seq(|ms|, i requires 0 <= i < |ms| => Removed(ms[i]))
  }

  function AllDrained(ms: seq<Message>): (r: seq<Freed>)
    ensures |r| == |ms| && forall i :: 0 <= i < |ms| ==> r[i] == Drained(ms[i])
  {
    seq(|ms|, i requires 0 <= i < |ms| => Drained(ms[i]))
  }

  function Start(): Looper
  {
    Looper([], None, false, false, false, 0, [], [])
  }

  predicate IsRun(xs: seq<Looper>, ts: seq<Step>)
  {
    && |xs| == |ts| + 1 && xs[0] == Start()
    && forall j: nat :: j < |ts| ==> Enabled(xs[j], ts[j]) && xs[j + 1] == Next(xs[j], ts[j])
  }
}

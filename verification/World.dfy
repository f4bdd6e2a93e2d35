/**
 The synchroniser among everything it runs with: the kernel and its history, the subscription
 that feeds the live channel, and the goroutines that send the dumps. Every interleaving, every
 channel capacity and every failure of the netlink calls is a run of this transition system.
 */
module World {
  import opened Options
  import opened Routes
  import opened KernelLog
  import opened SyncSpec

  // One StartOfRIB and what follows it. `sub` is the length of the kernel's history when the
  // subscription was made; t4 and t6 when the dumps were taken; `live` what was delivered live.
  datatype Round =
    | Failed
    | Scanned(sub: nat, t4: nat, d4: seq<Route>, t6: Option<nat>, d6: seq<Route>, ended: bool, live: seq<RouteUpdate>)

  datatype World = World(
    fsm: Fsm,
    log: Log,
    socket: Option<seq<RouteUpdate>>,   // what the subscription has still to put on the live channel
    rounds: seq<Round>)

  const START := World(INITIAL, [], None, [])

  // The answers to the netlink calls of a transition, and what the kernel does between the
  // subscription and the dump.
  datatype Calls = Calls(outcome: Outcome, meanwhile: seq<RouteUpdate>)

  datatype Label =
    | KernelChanges(u: RouteUpdate)
    | SocketRead
    | SocketHandsOver(c: Calls)
    | SocketDies
    | Sends(i: nat)
    | HandsOver(i: nat, c: Calls)
    | Closes(i: nat)
    | Receives(c: Calls)
    | TickFires(c: Calls)
    | Subscribes(c: Calls)

  predicate Resubscribes(f: Fsm) {
    f.phase == Idle || f.phase == UpdateRoutes
  }

  function LogAfter(w: World, c: Calls): Log {
    if Resubscribes(w.fsm) && !c.outcome.SubscribeFails? then w.log + c.meanwhile else w.log
  }

  predicate CallsOk(w: World, c: Calls) {
    && WellFormed(LogAfter(w, c))
    && (c.outcome.Dump? && w.fsm.phase != Ipv6Routes ==>
          Lists(c.outcome.routes, RibOf(LogAfter(w, c)), if Resubscribes(w.fsm) then V4 else V6))
  }

  // The kernel's side of a transition, and the record of it.
  function Netlink(w: World, c: Calls): World {
    var last := |w.rounds| - 1;
    match w.fsm.phase
    case Idle | UpdateRoutes =>
      (match c.outcome
       case SubscribeFails => w.(socket := None)
       case DumpFails => w.(log := LogAfter(w, c), socket := Some(c.meanwhile), rounds := w.rounds + [Failed])
       case Dump(d4) =>
         w.(log := LogAfter(w, c), socket := Some(c.meanwhile),
         rounds := w.rounds + [Scanned(|w.log|, |LogAfter(w, c)|, d4, None, [], false, [])]))
    case Ipv4Routes =>
      if last >= 0 && w.rounds[last].Scanned? && c.outcome.Dump? then
        w.(rounds := w.rounds[last := w.rounds[last].(t6 := Some(|w.log|), d6 := c.outcome.routes)])
      else w
    case Ipv6Routes =>
      if last >= 0 && w.rounds[last].Scanned? then
        w.(rounds := w.rounds[last := w.rounds[last].(ended := true)])
      else w
  }

  predicate Sentinels(f: Fsm)
    requires CanReceive(f)
  {
    Head(f).route.table == RT_TABLE_UNSPEC
  }

  function Received(w: World, c: Calls): World
    requires CanReceive(w.fsm)
  {
    var f := Receive(w.fsm, c.outcome);
    var last := |w.rounds| - 1;
    if Sentinels(w.fsm) then
      (if w.fsm.phase == UpdateRoutes then w else Netlink(w, c)).(fsm := f)
    else if w.fsm.updates.LiveChan? && last >= 0 && w.rounds[last].Scanned? then
      w.(fsm := f, rounds := w.rounds[last := w.rounds[last].(live := w.rounds[last].live + [Head(w.fsm)])])
    else w.(fsm := f)
  }

  // The subscription puts its next event on the live channel.
  predicate CanRead(w: World) {
    w.socket.Some? && w.socket.value != [] && w.fsm.live.Some?
  }

  function Read(w: World): World
    requires CanRead(w)
  {
    var live := w.fsm.live.value;
    w.(socket := Some(w.socket.value[1..]), fsm := w.fsm.(live := Some(live.(buf := live.buf + [w.socket.value[0]]))))
  }

  // `capacity` is the capacity of every channel; on an empty channel a value can be handed over
  // directly, which is all an unbuffered one allows.
  predicate Enabled(capacity: nat, w: World, l: Label) {
    && !w.fsm.panicked
    && match l
       case KernelChanges(u) => Legal(RibOf(w.log), u)
       case SocketRead => CanRead(w) && |w.fsm.live.value.buf| < capacity
       case SocketHandsOver(c) => CanRead(w) && w.fsm.updates.LiveChan? && w.fsm.live.value.buf == [] && CallsOk(w, c)
       case SocketDies => w.socket.Some? && w.fsm.live.Some?
       case Sends(i) => CanSend(w.fsm, i) && (Wired(w.fsm).value.closed || |Wired(w.fsm).value.buf| < capacity)
       case HandsOver(i, c) => CanSend(w.fsm, i) && Wired(w.fsm).value == EMPTY && CallsOk(w, c)
       case Closes(i) => CanClose(w.fsm, i)
       case Receives(c) => CanReceive(w.fsm) && CallsOk(w, c)
       case TickFires(c) => w.fsm.tick && CallsOk(w, c)
       case Subscribes(c) => w.fsm.subscribed && CallsOk(w, c)
  }

  function Next(capacity: nat, w: World, l: Label): World
    requires Enabled(capacity, w, l)
  {
    match l
    case KernelChanges(u) =>
      w.(log := w.log + [u], socket := if w.socket.Some? then Some(w.socket.value + [u]) else None)
    case SocketRead => Read(w)
    case SocketHandsOver(c) => Received(Read(w), c)
    case SocketDies => w.(socket := None, fsm := w.fsm.(live := Some(w.fsm.live.value.(closed := true))))
    case Sends(i) => w.(fsm := Send(w.fsm, i))
    case HandsOver(i, c) => Received(w.(fsm := Send(w.fsm, i)), c)
    case Closes(i) => w.(fsm := Close(w.fsm, i))
    case Receives(c) => Received(w, c)
    case TickFires(c) => Netlink(w, c).(fsm := FireTick(w.fsm, c.outcome))
    case Subscribes(c) => Netlink(w, c).(fsm := FirstSubscriber(w.fsm, c.outcome))
  }

  predicate IsRun(capacity: nat, ws: seq<World>, ls: seq<Label>) {
    && |ws| == |ls| + 1
    && ws[0] == START
    && forall i | 0 <= i < |ls| :: Enabled(capacity, ws[i], ls[i]) && ws[i + 1] == Next(capacity, ws[i], ls[i])
  }

  /* ---- What the subscriber should have been told ---- */

  function Flatten(r: Round): seq<Notification> {
    match r
    case Failed => [StartOfRIB]
    case Scanned(_, _, d4, _, d6, ended, live) =>
      [StartOfRIB] + News(d4) + News(d6) + (if ended then [EndOfRIB] else []) + Updates(live)
  }

  function FlattenAll(rounds: seq<Round>): seq<Notification> {
    if rounds == [] then [] else FlattenAll(rounds[..|rounds| - 1]) + Flatten(rounds[|rounds| - 1])
  }

  // The part of a dump that has left the kernel but not yet reached the subscriber.
  function InFlight(f: Fsm): seq<Notification> {
    if !f.updates.DumpChan? then []
    else Updates(f.updates.ch.buf) + if |f.producers| == 1 then News(f.producers[0]) else []
  }

  predicate Clean(log: Log) {
    forall u <- log :: u.route.table != 0
  }

  predicate CleanDump(d: seq<Route>) {
    forall r <- d :: r.table != 0
  }

  predicate CleanUpdates(us: seq<RouteUpdate>) {
    forall u <- us :: u.route.table != 0
  }
}

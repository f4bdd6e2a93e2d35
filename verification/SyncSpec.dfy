/**
 The netlink synchroniser (netlink/root.go), on values: the branches of its select loop, and the
 goroutines that write a dump into whatever channel the component currently reads.
 */
module SyncSpec {
  import opened Options
  import opened Routes

  datatype Phase = Idle | Ipv4Routes | Ipv6Routes | UpdateRoutes

  datatype Chan = Chan(buf: seq<RouteUpdate>, closed: bool)

  const EMPTY := Chan([], false)

  // What the component reads from: nothing, the channel of a dump, or the live channel itself.
  datatype Wire = NoChan | DumpChan(ch: Chan) | LiveChan

  datatype Fsm = Fsm(
    phase: Phase,
    subscribed: bool,              // the "there is a subscriber" channel is still selected
    tick: bool,                    // a delayed transition is pending
    updates: Wire,
    live: Option<Chan>,
    producers: seq<seq<Route>>,    // what each running dump goroutine has still to send
    out: seq<Notification>,        // everything notified so far
    panicked: bool)                // a goroutine closed or wrote a closed channel

  const INITIAL := Fsm(Idle, true, false, NoChan, None, [], [], false)

  // How the netlink calls of one transition turn out.
  datatype Outcome = SubscribeFails | DumpFails | Dump(routes: seq<Route>)

  function Wired(f: Fsm): Option<Chan> {
    match f.updates
    case NoChan => None
    case DumpChan(ch) => Some(ch)
    case LiveChan => f.live
  }

  function Rewire(f: Fsm, ch: Chan): Fsm {
    if f.updates.LiveChan? then f.(live := Some(ch)) else f.(updates := DumpChan(ch))
  }

  // Replacing the live channel leaves a reader of the old one with a channel of its own.
  function NewLive(f: Fsm): Fsm {
    f.(updates := if f.updates.LiveChan? && f.live.Some? then DumpChan(f.live.value) else f.updates,
       live := Some(EMPTY))
  }

  /** transition: the new state, and whether the transition succeeded. */
  function Transition(f: Fsm, o: Outcome): (Fsm, bool) {
    match f.phase
    case Idle | UpdateRoutes =>
      if o.SubscribeFails? then (NewLive(f), false)
      else
        var g := NewLive(f).(updates := DumpChan(EMPTY), out := f.out + [StartOfRIB]);
        if o.DumpFails? then (g, false)
        else (g.(producers := f.producers + [o.routes], phase := Ipv4Routes), true)
    case Ipv4Routes =>
      var g := f.(updates := DumpChan(EMPTY));
      if !o.Dump? then (g, false)
      else (g.(producers := f.producers + [o.routes], phase := Ipv6Routes), true)
    case Ipv6Routes =>
      (f.(out := f.out + [EndOfRIB], updates := if f.live.Some? then LiveChan else NoChan, phase := UpdateRoutes), true)
  }

  // What the component does on a route in table 0, which it takes for the closing of its channel.
  function Sentinel(f: Fsm, o: Outcome): Fsm {
    var f := f.(updates := NoChan);
    if f.phase == UpdateRoutes then f.(tick := true)
    else
      var (g, done) := Transition(f, o);
      if done then g else g.(tick := true)
  }

  predicate CanReceive(f: Fsm) {
    Wired(f).Some? && (Wired(f).value.buf != [] || Wired(f).value.closed)
  }

  // A channel yields what it holds, and once closed and empty the zero update.
  function Head(f: Fsm): RouteUpdate
    requires CanReceive(f)
  {
    var ch := Wired(f).value;
    if ch.buf == [] then ZERO_UPDATE else ch.buf[0]
  }

  /** The updates branch of run. */
  function Receive(f: Fsm, o: Outcome): Fsm
    requires CanReceive(f)
  {
    var ch, u := Wired(f).value, Head(f);
    var g := if ch.buf == [] then f else Rewire(f, ch.(buf := ch.buf[1..]));
    if u.route.table == RT_TABLE_UNSPEC then Sentinel(g, o)
    else g.(out := f.out + [Update(u)])
  }

  /** The transitionTick branch of run. */
  function FireTick(f: Fsm, o: Outcome): Fsm
    requires f.tick
  {
    var (g, done) := Transition(f, o);
    if done then g.(tick := false) else g
  }

  /** The subscribed branch of run: retried at once until it succeeds. */
  function FirstSubscriber(f: Fsm, o: Outcome): Fsm
    requires f.subscribed
  {
    var (g, done) := Transition(f, o);
    if done then g.(subscribed := false) else g
  }

  predicate CanSend(f: Fsm, i: nat) {
    i < |f.producers| && f.producers[i] != [] && Wired(f).Some?
  }

  /** A dump goroutine sends its next route on the channel the component reads at that moment. */
  function Send(f: Fsm, i: nat): Fsm
    requires CanSend(f, i)
  {
    var ch := Wired(f).value;
    if ch.closed then f.(panicked := true)
    else
      Rewire(f, ch.(buf := ch.buf + [RouteUpdate(NewRoute, f.producers[i][0])]))
      .(producers := f.producers[i := f.producers[i][1..]])
  }

  predicate CanClose(f: Fsm, i: nat) {
    i < |f.producers| && f.producers[i] == []
  }

  /** A dump goroutine has sent everything: it closes that channel and ends. */
  function Close(f: Fsm, i: nat): Fsm
    requires CanClose(f, i)
  {
    if Wired(f).None? || Wired(f).value.closed then f.(panicked := true)
    else
      Rewire(f, Wired(f).value.(closed := true)).(producers := f.producers[..i] + f.producers[i + 1..])
  }
}

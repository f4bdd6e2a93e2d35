/** The netlink component as the daemon runs it (netlink/root.go): channels are shared objects. */
module Synchroniser {
  import opened Options
  import opened Routes
  import opened SyncSpec

  class Channel {
    var buf: seq<RouteUpdate>
    var closed: bool

    constructor ()
      ensures Value() == EMPTY
    {
      buf, closed := [], false;
    }

    function Value(): Chan
      reads this
    {
      Chan(buf, closed)
    }
  }

  class RealComponent {
    var state: Phase
    var subscribed: bool
    var transitionTick: bool
    var updates: Channel?
    var liveUpdates: Channel?
    var goroutines: seq<seq<Route>>
    ghost var notified: seq<Notification>
    ghost var panicked: bool

    // When both fields hold the same channel, the component reads the live channel.
    ghost function Abs(): Fsm
      reads this, if updates == null then {} else {updates}, if liveUpdates == null then {} else {liveUpdates}
    {
      Fsm(state, subscribed, transitionTick,
          if updates == null then NoChan else if updates == liveUpdates then LiveChan else DumpChan(updates.Value()),
          if liveUpdates == null then None else Some(liveUpdates.Value()),
          goroutines, notified, panicked)
    }

    constructor ()
      ensures Abs() == INITIAL
    {
      state, subscribed, transitionTick := Idle, true, false;
      updates, liveUpdates, goroutines := null, null, [];
      notified, panicked := [], false;
    }

    method Notify(n: Notification)
      modifies this`notified
      ensures notified == old(notified) + [n]
    {
      notified := notified + [n];
    }

    /** injectRoutes: start the goroutine that will send the listed routes and close the channel. */
    method InjectRoutes(o: Outcome) returns (done: bool)
      modifies this`goroutines
      ensures done <==> o.Dump?
      ensures goroutines == if o.Dump? then old(goroutines) + [o.routes] else old(goroutines)
    {
      if !o.Dump? {
        return false;
      }
      goroutines := goroutines + [o.routes];
      return true;
    }

    method Transition(o: Outcome) returns (done: bool)
      modifies this
      ensures (Abs(), done) == SyncSpec.Transition(old(Abs()), o)
    {
      match state
      case Idle | UpdateRoutes =>
        liveUpdates := new Channel();
        if o.SubscribeFails? {
          return false;
        }
        updates := new Channel();
        Notify(StartOfRIB);
        done := InjectRoutes(o);
        if !done {
          return;
        }
        state := Ipv4Routes;
      case Ipv4Routes =>
        updates := new Channel();
        done := InjectRoutes(o);
        if !done {
          return;
        }
        state := Ipv6Routes;
      case Ipv6Routes =>
        Notify(EndOfRIB);
        updates := liveUpdates;
        state := UpdateRoutes;
        done := true;
    }

    method OnSubscribed(o: Outcome)
      requires subscribed
      modifies this
      ensures Abs() == FirstSubscriber(old(Abs()), o)
    {
      var done := Transition(o);
      if done {
        subscribed := false;
      }
    }

    method OnTick(o: Outcome)
      requires transitionTick
      modifies this
      ensures Abs() == FireTick(old(Abs()), o)
    {
      var done := Transition(o);
      if !done {
        return;
      }
      transitionTick := false;
    }

    /** Reading the selected channel: the zero update when it is closed and empty. */
    method TakeUpdate() returns (u: RouteUpdate)
      requires updates != null && (updates.buf != [] || updates.closed)
      modifies updates`buf
      ensures u == Head(old(Abs()))
      ensures var ch := Wired(old(Abs())).value;
              Abs() == if ch.buf == [] then old(Abs()) else Rewire(old(Abs()), ch.(buf := ch.buf[1..]))
    {
      if updates.buf == [] {
        return ZERO_UPDATE;
      }
      u := updates.buf[0];
      updates.buf := updates.buf[1..];
    }

    method Disconnect()
      modifies this`updates
      ensures updates == null && Abs() == old(Abs()).(updates := NoChan)
    {
      updates := null;
    }

    method DelayTransition()
      modifies this`transitionTick
      ensures Abs() == old(Abs()).(tick := true)
    {
      transitionTick := true;
    }

    /** What run does when the channel it reads turns out to be closed. */
    method OnClosed(o: Outcome)
      modifies this
      ensures Abs() == Sentinel(old(Abs()), o)
    {
      hide SyncSpec.Transition;
      Disconnect();
      if state != UpdateRoutes {
        var done := Transition(o);
        if done {
          return;
        }
      }
      DelayTransition();
    }

    method OnUpdate(o: Outcome)
      requires updates != null && (updates.buf != [] || updates.closed)
      modifies this, updates`buf
      ensures Abs() == Receive(old(Abs()), o)
      // Every route of another table than 0 is notified, and nothing else happens.
      ensures old(updates.buf) != [] && old(updates.buf)[0].route.table != 0 ==>
                && notified == old(notified) + [Update(old(updates.buf)[0])]
                && updates == old(updates) && state == old(state) && transitionTick == old(transitionTick)
    {
      hide Sentinel;
      var u := TakeUpdate();
      if u.route.table == RT_TABLE_UNSPEC {
        OnClosed(o);
      } else {
        Notify(Update(u));
      }
    }

    method SendNext(i: nat)
      requires i < |goroutines| && goroutines[i] != [] && updates != null
      modifies this`goroutines, this`panicked, updates`buf
      ensures Abs() == Send(old(Abs()), i)
    {
      if updates.closed {
        panicked := true;
        return;
      }
      updates.buf := updates.buf + [RouteUpdate(NewRoute, goroutines[i][0])];
      goroutines := goroutines[i := goroutines[i][1..]];
    }

    method CloseUpdates(i: nat)
      requires i < |goroutines| && goroutines[i] == []
      modifies this`goroutines, this`panicked, updates
      ensures Abs() == Close(old(Abs()), i)
    {
      if updates == null || updates.closed {
        panicked := true;
        return;
      }
      updates.closed := true;
      goroutines := goroutines[..i] + goroutines[i + 1..];
    }
  }
}

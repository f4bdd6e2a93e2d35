/** Every run of the synchroniser keeps its invariant, and what follows for what subscribers see. */
module SyncRuns {
  import opened Options
  import opened Routes
  import opened KernelLog
  import opened SyncSpec
  import opened World
  import opened SyncInvariant

  predicate CleanCalls(c: Calls) {
    CleanUpdates(c.meanwhile) && (c.outcome.Dump? ==> CleanDump(c.outcome.routes))
  }

  // No route that enters the system is in table 0.
  predicate CleanLabel(l: Label) {
    match l
    case KernelChanges(u) => u.route.table != 0
    case SocketHandsOver(c) => CleanCalls(c)
    case HandsOver(_, c) => CleanCalls(c)
    case Receives(c) => CleanCalls(c)
    case TickFires(c) => CleanCalls(c)
    case Subscribes(c) => CleanCalls(c)
    case _ => true
  }

  /* ---- The kernel and the subscription ---- */

  function Changed(w: World, u: RouteUpdate): World {
    w.(log := w.log + [u], socket := if w.socket.Some? then Some(w.socket.value + [u]) else None)
  }

  lemma SaneAfterChange(w: World, u: RouteUpdate)
    requires Sane(w) && Legal(RibOf(w.log), u) && u.route.table != 0
    ensures Sane(Changed(w, u))
  {
    hide RoundOk, RibOf, Legal, WellFormed;
    WellFormedGrows(w.log, u);
    forall r <- w.rounds ensures RoundOk(w.log + [u], r) {
      RoundOkGrows(w.log, [u], r);
    }
  }

  lemma StreamAfterChange(w: World, u: RouteUpdate)
    requires StreamOk(w)
    ensures StreamOk(Changed(w, u))
  {
    var r := w.rounds[|w.rounds| - 1];
    var from := r.sub + |r.live|;
    assert (w.log + [u])[from..] == w.log[from..] + [u];
  }

  lemma ChangeKeepsInv(w: World, u: RouteUpdate)
    requires Inv(w) && Legal(RibOf(w.log), u) && u.route.table != 0
    ensures Inv(Changed(w, u))
  {
    hide Sane, StreamOk, FlattenAll, InFlight, RibOf, Legal;
    SaneAfterChange(w, u);
    if StreamOk(w) {
      StreamAfterChange(w, u);
    }
  }

  lemma SaneAfterRead(w: World)
    requires Sane(w) && CanRead(w)
    ensures Sane(Read(w))
  {
  }

  lemma StreamAfterRead(w: World)
    requires StreamOk(w) && CanRead(w)
    ensures StreamOk(Read(w))
  {
    var live := w.fsm.live.value;
    assert live.buf + w.socket.value == (live.buf + [w.socket.value[0]]) + w.socket.value[1..];
  }

  lemma ReadKeepsInv(w: World)
    requires Inv(w) && CanRead(w)
    ensures Inv(Read(w))
  {
    hide Sane, StreamOk, FlattenAll;
    SaneAfterRead(w);
    if StreamOk(w) {
      StreamAfterRead(w);
    }
  }

  function Died(w: World): World
    requires w.fsm.live.Some?
  {
    w.(socket := None, fsm := w.fsm.(live := Some(w.fsm.live.value.(closed := true))))
  }

  lemma StreamAfterDeath(w: World)
    requires StreamOk(w) && w.socket.Some?
    ensures StreamOk(Died(w))
  {
    var live := w.fsm.live.value;
    assert (live.buf + w.socket.value)[..|live.buf|] == live.buf;
  }

  lemma SaneAfterDeath(w: World)
    requires Sane(w) && w.fsm.live.Some?
    ensures Sane(Died(w))
  {
  }

  lemma DeathKeepsInv(w: World)
    requires Inv(w) && w.socket.Some? && w.fsm.live.Some?
    ensures Inv(Died(w))
  {
    hide Sane, StreamOk, FlattenAll;
    SaneAfterDeath(w);
    if StreamOk(w) {
      StreamAfterDeath(w);
    }
  }

  /* ---- The dump goroutine ---- */

  lemma OnlyStreamingHasGoroutines(w: World)
    requires Inv(w) && w.fsm.producers != []
    ensures Streaming(w) && |w.fsm.producers| == 1 && !w.fsm.updates.ch.closed
  {
  }

  lemma SendIsClean(p: seq<Route>, buf: seq<RouteUpdate>)
    requires p != [] && CleanDump(p) && CleanUpdates(buf)
    ensures CleanDump(p[1..]) && CleanUpdates(buf + [RouteUpdate(NewRoute, p[0])])
  {
    assert p[0] in p && forall r <- p[1..] :: r in p;
  }

  lemma SendFlows(f: Fsm)
    requires OneWriter(f) && CanSend(f, 0)
    ensures OneWriter(Send(f, 0)) && InFlight(Send(f, 0)) == InFlight(f)
  {
    hide CleanUpdates, CleanDump;
    var p, ch := f.producers[0], f.updates.ch;
    var g := Send(f, 0);
    assert p in f.producers;
    SendIsClean(p, ch.buf);
    assert f.producers == [p] && g.producers == [p[1..]];
    assert Updates(g.updates.ch.buf) == Updates(ch.buf) + [NewNote(p[0])];
    assert News(p) == [NewNote(p[0])] + News(p[1..]);
    Regroup(Updates(ch.buf), [NewNote(p[0])], News(p[1..]));
  }

  lemma SendKeepsInv(w: World, i: nat)
    requires Inv(w) && CanSend(w.fsm, i)
    ensures Inv(w.(fsm := Send(w.fsm, i)))
  {
    hide Sane, FlattenAll, InFlight, CleanUpdates, CleanDump;
    OnlyStreamingHasGoroutines(w);
    SendFlows(w.fsm);
    var v := w.(fsm := Send(w.fsm, i));
    FlagsDoNotMatter(w, v);
  }

  lemma CloseFlows(f: Fsm)
    requires OneWriter(f) && CanClose(f, 0)
    ensures OneWriter(Close(f, 0)) && InFlight(Close(f, 0)) == InFlight(f)
  {
    assert f.producers == [[]];
    assert News([]) == [];
  }

  lemma CloseKeepsInv(w: World, i: nat)
    requires Inv(w) && CanClose(w.fsm, i)
    ensures Inv(w.(fsm := Close(w.fsm, i)))
  {
    hide Sane, FlattenAll, InFlight, CleanUpdates, CleanDump;
    OnlyStreamingHasGoroutines(w);
    CloseFlows(w.fsm);
    var v := w.(fsm := Close(w.fsm, i));
    FlagsDoNotMatter(w, v);
  }

  /* ---- The component ---- */

  lemma ReceiveFlows(f: Fsm, o: Outcome)
    requires OneWriter(f) && f.updates.ch.buf != []
    ensures var g := Receive(f, o);
            && OneWriter(g) && g.out + InFlight(g) == f.out + InFlight(f)
            && g == f.(updates := g.updates, out := g.out)
    ensures !Sentinels(f)
  {
    var buf := f.updates.ch.buf;
    var g := Receive(f, o);
    assert buf[0] in buf && forall u <- buf[1..] :: u in buf;
    assert Updates(buf) == [Update(buf[0])] + Updates(buf[1..]);
    var rest := if |f.producers| == 1 then News(f.producers[0]) else [];
    Regroup(f.out, [Update(buf[0])], Updates(buf[1..]) + rest);
    Regroup([Update(buf[0])], Updates(buf[1..]), rest);
  }

  lemma ReceiveFromDump(w: World, c: Calls)
    requires Streaming(w) && w.fsm.updates.ch.buf != []
    ensures Inv(Received(w, c))
  {
    hide Sane, FlattenAll, InFlight, CleanUpdates, CleanDump;
    ReceiveFlows(w.fsm, c.outcome);
    FlagsDoNotMatter(w, Received(w, c));
  }

  lemma DumpEnds(w: World, c: Calls)
    requires Streaming(w) && w.fsm.updates.ch == Chan([], true) && CallsOk(w, c) && Clean(LogAfter(w, c))
    ensures Inv(Received(w, c))
  {
    hide Sane, StreamOk, FlattenAll, CleanUpdates, CleanDump, Transition, Netlink;
    var v := w.(fsm := w.fsm.(updates := NoChan));
    FlagsDoNotMatter(w, v);
    assert w.fsm.out + [] == w.fsm.out && Updates([]) + [] == [];
    TransitionWorks(v, c);
    NetlinkIgnoresWire(w, v, c);
    TransitionKeepsFlags(v.fsm, c.outcome);
    if !Done(v, c) {
      FlagsDoNotMatter(Moved(v, c), Received(w, c));
    }
  }

  lemma NetlinkIgnoresWire(w: World, v: World, c: Calls)
    requires v == w.(fsm := v.fsm) && v.fsm.phase == w.fsm.phase
    ensures Netlink(w, c) == Netlink(v, c).(fsm := w.fsm)
    ensures LogAfter(w, c) == LogAfter(v, c) && CallsOk(w, c) == CallsOk(v, c)
  {
  }

  lemma TransitionKeepsFlags(f: Fsm, o: Outcome)
    ensures var g := Transition(f, o).0; g.tick == f.tick && g.subscribed == f.subscribed && g.panicked == f.panicked
    ensures !Transition(f, o).1 ==> Transition(f, o).0.phase == f.phase
  {
  }

  lemma LiveHeadIsClean(w: World)
    requires StreamOk(w) && Clean(w.log) && w.fsm.live.value.buf != []
    ensures var r := w.rounds[|w.rounds| - 1];
            && r.sub + |r.live| < |w.log| && w.fsm.live.value.buf[0] == w.log[r.sub + |r.live|]
            && w.fsm.live.value.buf[0].route.table != 0
  {
    var r, buf := w.rounds[|w.rounds| - 1], w.fsm.live.value.buf;
    var rest := w.log[r.sub + |r.live|..];
    assert buf <= rest;
    assert buf[0] == rest[0];
    assert rest[0] in w.log;
  }

  lemma DeliveredRoundOk(log: Log, r: Round, u: RouteUpdate)
    requires RoundOk(log, r) && r.Scanned? && r.ended
    requires r.sub + |r.live| < |log| && u == log[r.sub + |r.live|]
    ensures RoundOk(log, r.(live := r.live + [u]))
    ensures Flatten(r.(live := r.live + [u])) == Flatten(r) + [Update(u)]
  {
    hide Lists, RibOf;
    assert log[r.sub..r.sub + |r.live| + 1] == log[r.sub..r.sub + |r.live|] + [log[r.sub + |r.live|]];
    assert Updates(r.live + [u]) == Updates(r.live) + [Update(u)];
    Regroup([StartOfRIB] + News(r.d4) + News(r.d6) + [EndOfRIB], Updates(r.live), [Update(u)]);
  }

  lemma DeliveryKeepsSane(w: World, c: Calls)
    requires Following(w) && w.fsm.live.value.buf != []
    ensures !Sentinels(w.fsm)
    ensures Sane(Received(w, c)) && Received(w, c).fsm.out == FlattenAll(Received(w, c).rounds)
  {
    hide Lists, RibOf, WellFormed, Flatten, FlattenAll, RoundOk;
    LiveHeadIsClean(w);
    var last, u := |w.rounds| - 1, w.fsm.live.value.buf[0];
    var r, v := w.rounds[last], Received(w, c);
    assert r in w.rounds;
    EndedOfOver(w);
    DeliveredRoundOk(w.log, r, u);
    FlattenReplaceLast(w.rounds, v.rounds[last], [Update(u)]);
    forall x <- v.rounds ensures RoundOk(v.log, x) {
      if x != v.rounds[last] {
        assert x in w.rounds;
      }
    }
  }

  lemma EndedOfOver(w: World)
    requires Following(w)
    ensures var r := w.rounds[|w.rounds| - 1]; r.Scanned? && r.ended && w.fsm.live.Some?
  {
  }

  lemma DeliveryKeepsStream(w: World, c: Calls)
    requires Following(w) && w.fsm.live.value.buf != []
    ensures StreamOk(Received(w, c))
  {
    hide Lists, RibOf, WellFormed, Flatten, FlattenAll, RoundOk;
    LiveHeadIsClean(w);
    var r, buf := w.rounds[|w.rounds| - 1], w.fsm.live.value.buf;
    var from := r.sub + |r.live|;
    assert w.log[from..] == [w.log[from]] + w.log[from + 1..];
    assert buf == [buf[0]] + buf[1..];
    if w.socket.Some? {
      assert buf + w.socket.value == [buf[0]] + (buf[1..] + w.socket.value);
    }
  }

  lemma ReceiveFromLive(w: World, c: Calls)
    requires Following(w) && CanReceive(w.fsm)
    ensures Inv(Received(w, c))
  {
    hide Sane, StreamOk, FlattenAll, RoundOk;
    EndedOfOver(w);
    if w.fsm.live.value.buf != [] {
      DeliveryKeepsSane(w, c);
      DeliveryKeepsStream(w, c);
    } else {
      FlagsDoNotMatter(w, Received(w, c));
    }
  }

  lemma ReceiveKeepsInv(w: World, c: Calls)
    requires Inv(w) && CanReceive(w.fsm) && CallsOk(w, c) && Clean(LogAfter(w, c))
    ensures Inv(Received(w, c))
  {
    hide Sane, StreamOk, FlattenAll, RoundOk, Sentinels, Transition, Netlink, Received, CallsOk, Inv;
    SilentWhileWaiting(w);
    if Streaming(w) {
      if w.fsm.updates.ch.buf != [] {
        ReceiveFromDump(w, c);
      } else {
        DumpEnds(w, c);
      }
    } else {
      ReceiveFromLive(w, c);
    }
  }

  // Retry discipline: while a transition is delayed, nothing can be received or sent, so nothing
  // is delivered.
  lemma SilentWhileWaiting(w: World)
    requires Inv(w)
    ensures w.fsm.tick ==> Waiting(w)
    ensures Waiting(w) ==> w.fsm.producers == [] && !CanReceive(w.fsm)
    ensures Inv(w) && !Waiting(w) ==> Streaming(w) || Following(w)
  {
  }

  lemma TickKeepsInv(w: World, c: Calls)
    requires Inv(w) && w.fsm.tick && CallsOk(w, c) && Clean(LogAfter(w, c))
    ensures Inv(Netlink(w, c).(fsm := FireTick(w.fsm, c.outcome)))
  {
    hide Sane, StreamOk, FlattenAll, Transition, Netlink;
    SilentWhileWaiting(w);
    TransitionWorks(w, c);
    TransitionKeepsFlags(w.fsm, c.outcome);
  }

  lemma SubscriptionKeepsInv(w: World, c: Calls)
    requires Inv(w) && w.fsm.subscribed && CallsOk(w, c) && Clean(LogAfter(w, c))
    ensures Inv(Netlink(w, c).(fsm := FirstSubscriber(w.fsm, c.outcome)))
  {
    hide Sane, StreamOk, FlattenAll, Transition, Netlink;
    TransitionWorks(w, c);
    TransitionKeepsFlags(w.fsm, c.outcome);
  }

  /* ---- Runs ---- */

  lemma CleanAfterCalls(w: World, c: Calls)
    requires Clean(w.log) && CleanUpdates(c.meanwhile)
    ensures Clean(LogAfter(w, c))
  {
  }

  lemma StepKeepsInv(capacity: nat, w: World, l: Label)
    requires Inv(w) && Enabled(capacity, w, l) && CleanLabel(l)
    ensures Inv(Next(capacity, w, l))
  {
    hide Sane, StreamOk, FlattenAll, PhaseFits, OneWriter, CallsOk, CleanUpdates, Netlink, Received, Send, Close, FireTick, FirstSubscriber, Inv;
    InvIsClean(w);
    match l
    case KernelChanges(u) => ChangeKeepsInv(w, u);
    case SocketRead => ReadKeepsInv(w);
    case SocketHandsOver(c) =>
      ReadKeepsInv(w);
      CleanAfterCalls(w, c);
      ReadKeepsCalls(w, c);
      ReceiveKeepsInv(Read(w), c);
    case SocketDies => DeathKeepsInv(w);
    case Sends(i) => SendKeepsInv(w, i);
    case HandsOver(i, c) =>
      SendKeepsInv(w, i);
      CleanAfterCalls(w, c);
      SendKeepsCalls(w, i, c);
      ReceiveKeepsInv(w.(fsm := Send(w.fsm, i)), c);
    case Closes(i) => CloseKeepsInv(w, i);
    case Receives(c) =>
      CleanAfterCalls(w, c);
      ReceiveKeepsInv(w, c);
    case TickFires(c) =>
      CleanAfterCalls(w, c);
      TickKeepsInv(w, c);
    case Subscribes(c) =>
      CleanAfterCalls(w, c);
      SubscriptionKeepsInv(w, c);
  }

  lemma InvIsClean(w: World)
    requires Inv(w)
    ensures Clean(w.log)
  {
  }

  lemma ReadKeepsCalls(w: World, c: Calls)
    requires CanRead(w)
    ensures CallsOk(Read(w), c) == CallsOk(w, c) && LogAfter(Read(w), c) == LogAfter(w, c)
    ensures w.fsm.updates.LiveChan? ==> CanReceive(Read(w).fsm)
  {
  }

  lemma SendKeepsCalls(w: World, i: nat, c: Calls)
    requires CanSend(w.fsm, i) && Wired(w.fsm).value == EMPTY
    ensures var v := w.(fsm := Send(w.fsm, i));
            CallsOk(v, c) == CallsOk(w, c) && LogAfter(v, c) == LogAfter(w, c) && CanReceive(v.fsm)
  {
  }

  lemma StartIsWaiting()
    ensures Inv(START)
  {
    assert FlattenAll([]) == [];
  }

  predicate CleanLabels(ls: seq<Label>) {
    forall l <- ls :: CleanLabel(l)
  }

  // Every interleaving, every capacity, every failure: the invariant holds throughout.
  lemma {:induction false} EveryRunKeepsInv(capacity: nat, ws: seq<World>, ls: seq<Label>, i: nat)
    requires IsRun(capacity, ws, ls) && CleanLabels(ls) && i < |ws|
    ensures Inv(ws[i])
  {
    hide Enabled, Next, Inv, CleanLabel;
    if i == 0 {
      StartIsWaiting();
    } else {
      EveryRunKeepsInv(capacity, ws, ls, i - 1);
      assert ls[i - 1] in ls;
      StepKeepsInv(capacity, ws[i - 1], ls[i - 1]);
    }
  }

  // Conservation: nothing is lost, duplicated or reordered. What was notified, followed by the
  // part of a dump still on its way, is the scans' dumps and live events, in order; so once a scan
  // has ended its two dumps have been delivered in full. No goroutine ever writes or closes a
  // closed channel.
  lemma NotificationsAreConserved(capacity: nat, ws: seq<World>, ls: seq<Label>, i: nat)
    requires IsRun(capacity, ws, ls) && CleanLabels(ls) && i < |ws|
    ensures !ws[i].fsm.panicked
    ensures ws[i].fsm.out + InFlight(ws[i].fsm) == FlattenAll(ws[i].rounds)
    ensures ws[i].fsm.phase == UpdateRoutes || ws[i].fsm.tick ==> ws[i].fsm.out == FlattenAll(ws[i].rounds)
  {
    EveryRunKeepsInv(capacity, ws, ls, i);
    QuietFlight(ws[i]);
  }

  lemma QuietFlight(w: World)
    requires Inv(w)
    ensures Waiting(w) || Following(w) ==> InFlight(w.fsm) == [] && w.fsm.out + [] == w.fsm.out
  {
    assert Updates([]) + [] == [];
  }

  /* ---- Table 0 ---- */

  // Exactly the routes of other tables are notified; the zero update of a closed channel, and a
  // route in table 0, make the component drop the channel and notify no route.
  lemma ReceiveNotifiesExactly(f: Fsm, o: Outcome)
    requires CanReceive(f)
    ensures var ch := Wired(f).value;
            if ch.buf != [] && ch.buf[0].route.table != 0 then
              Receive(f, o) == Rewire(f, Chan(ch.buf[1..], ch.closed)).(out := f.out + [Update(ch.buf[0])])
            else
              && f.out <= Receive(f, o).out
              && (forall i | |f.out| <= i < |Receive(f, o).out| :: !Receive(f, o).out[i].Update?)
              && (Receive(f, o).tick || Receive(f, o).phase != f.phase)
  {
    hide Sentinel;
    var ch := Wired(f).value;
    if ch.buf == [] {
      SentinelIsSilent(f, o);
    } else if ch.buf[0].route.table == 0 {
      SentinelIsSilent(Rewire(f, Chan(ch.buf[1..], ch.closed)), o);
    }
  }

  lemma SentinelIsSilent(f: Fsm, o: Outcome)
    ensures var g := Sentinel(f, o);
            && f.out <= g.out && (forall i | |f.out| <= i < |g.out| :: !g.out[i].Update?)
            && (g.tick || g.phase != f.phase)
  {
  }

  // What the end of a channel does: the end of a dump is followed at once by the next transition,
  // the end of the live channel only by a delayed one.
  lemma EndOfChannelActs(f: Fsm, o: Outcome)
    requires Wired(f) == Some(Chan([], true))
    ensures var g := Receive(f, o);
            match f.phase
            case UpdateRoutes => g == f.(updates := NoChan, tick := true)
            case Ipv4Routes =>
              && g.out == f.out && g.updates == DumpChan(Chan([], false))
              && g.producers == (if o.Dump? then f.producers + [o.routes] else f.producers)
              && g.phase == (if o.Dump? then Ipv6Routes else Ipv4Routes)
              && g.tick == (f.tick || !o.Dump?)
            case Ipv6Routes =>
              g == f.(phase := UpdateRoutes, out := f.out + [EndOfRIB], updates := if f.live.Some? then LiveChan else NoChan)
            case Idle => true
  {
  }

  predicate Rescans(before: seq<Notification>, after: seq<Notification>) {
    exists i | |before| <= i < |after| :: after[i] == StartOfRIB
  }

  lemma ReceivingDoesNotRescan(f: Fsm, o: Outcome)
    requires CanReceive(f) && f.phase != Idle
    ensures !Rescans(f.out, Receive(f, o).out)
  {
    hide Sentinel;
    var ch := Wired(f).value;
    SentinelDoesNotRescan(if ch.buf == [] then f else Rewire(f, ch.(buf := ch.buf[1..])), o);
  }

  lemma SentinelDoesNotRescan(f: Fsm, o: Outcome)
    requires f.phase != Idle
    ensures !Rescans(f.out, Sentinel(f, o).out)
  {
  }

  // In every run, a new scan begins with the first subscriber or with a delayed transition, and
  // with nothing else: a failing stream is never rescanned at once.
  lemma RescansAreDelayed(capacity: nat, ws: seq<World>, ls: seq<Label>, i: nat)
    requires IsRun(capacity, ws, ls) && CleanLabels(ls) && i < |ls|
    ensures Rescans(ws[i].fsm.out, ws[i + 1].fsm.out) ==> ls[i].TickFires? || ls[i].Subscribes?
  {
    hide IsRun, Rescans, Inv, CallsOk, Netlink, Receive, Transition, CleanLabels;
    RunStep(capacity, ws, ls, i);
    EveryRunKeepsInv(capacity, ws, ls, i);
    var w := ws[i];
    NothingRescans(w.fsm.out);
    match ls[i]
    case SocketHandsOver(c) =>
      ReadKeepsInv(w);
      ReadKeepsCalls(w, c);
      NotIdleWhenReceiving(Read(w));
      ReceivingDoesNotRescan(Read(w).fsm, c.outcome);
    case HandsOver(j, c) =>
      SendKeepsInv(w, j);
      SendKeepsCalls(w, j, c);
      NotIdleWhenReceiving(w.(fsm := Send(w.fsm, j)));
      ReceivingDoesNotRescan(Send(w.fsm, j), c.outcome);
    case Receives(c) =>
      NotIdleWhenReceiving(w);
      ReceivingDoesNotRescan(w.fsm, c.outcome);
    case _ =>
  }

  lemma RunStep(capacity: nat, ws: seq<World>, ls: seq<Label>, i: nat)
    requires IsRun(capacity, ws, ls) && i < |ls|
    ensures |ws| == |ls| + 1 && Enabled(capacity, ws[i], ls[i]) && ws[i + 1] == Next(capacity, ws[i], ls[i])
  {
  }

  lemma NothingRescans(ns: seq<Notification>)
    ensures !Rescans(ns, ns)
  {
  }

  lemma NotIdleWhenReceiving(w: World)
    requires Inv(w) && CanReceive(w.fsm)
    ensures w.fsm.phase != Idle
  {
    hide Sane, PhaseFits, StreamOk, FlattenAll;
  }

  predicate NeverTableZero(ns: seq<Notification>) {
    forall n <- ns :: n.Update? ==> n.update.route.table != 0
  }

  lemma SentinelDeliversNothing(f: Fsm, o: Outcome)
    ensures exists ns :: Sentinel(f, o).out == f.out + ns && forall n <- ns :: !n.Update?
  {
    var g := Transition(f.(updates := NoChan), o).0;
    if f.phase == UpdateRoutes || g.out == f.out {
      assert Sentinel(f, o).out == f.out + [];
    } else {
      var n := g.out[|f.out|];
      assert Sentinel(f, o).out == f.out + [n];
    }
  }

  lemma ReceiveHidesTableZero(f: Fsm, o: Outcome)
    requires CanReceive(f) && NeverTableZero(f.out)
    ensures NeverTableZero(Receive(f, o).out)
  {
    hide Sentinel, Transition;
    var ch := Wired(f).value;
    SentinelDeliversNothing(f, o);
    if ch.buf != [] {
      SentinelDeliversNothing(Rewire(f, ch.(buf := ch.buf[1..])), o);
    }
  }

  lemma StepHidesTableZero(capacity: nat, w: World, l: Label)
    requires Enabled(capacity, w, l) && NeverTableZero(w.fsm.out)
    ensures NeverTableZero(Next(capacity, w, l).fsm.out)
  {
    hide CallsOk, Netlink, Receive, RibOf, Legal, Sentinel;
    match l
    case SocketHandsOver(c) => ReceiveHidesTableZero(Read(w).fsm, c.outcome);
    case HandsOver(i, c) => ReceiveHidesTableZero(Send(w.fsm, i), c.outcome);
    case Receives(c) => ReceiveHidesTableZero(w.fsm, c.outcome);
    case _ =>
  }

  lemma {:induction false} TableZeroIsNeverDelivered(capacity: nat, ws: seq<World>, ls: seq<Label>, i: nat)
    requires IsRun(capacity, ws, ls) && i < |ws|
    ensures NeverTableZero(ws[i].fsm.out)
  {
    if i > 0 {
      TableZeroIsNeverDelivered(capacity, ws, ls, i - 1);
      StepHidesTableZero(capacity, ws[i - 1], ls[i - 1]);
    }
  }

  lemma {:induction false} FlattenContains(rounds: seq<Round>, j: nat)
    requires j < |rounds|
    ensures forall n <- Flatten(rounds[j]) :: n in FlattenAll(rounds)
  {
    if j < |rounds| - 1 {
      FlattenContains(rounds[..|rounds| - 1], j);
    }
  }

  lemma NewsHolds(d: seq<Route>, x: Route)
    ensures x in d ==> NewNote(x) in News(d)
  {
    if x in d {
      var i :| 0 <= i < |d| && d[i] == x;
      assert News(d)[i] == NewNote(x);
    }
  }

  // The exclusion of table 0 is needed: a dump that lists such a route is never delivered in full,
  // in any run, because the component takes the route for the end of the channel.
  lemma DeliveryNeedsTables(capacity: nat, ws: seq<World>, ls: seq<Label>, i: nat, j: nat)
    requires IsRun(capacity, ws, ls) && i < |ws|
    requires j < |ws[i].rounds| && ws[i].rounds[j].Scanned?
    requires ws[i].fsm.out == FlattenAll(ws[i].rounds)
    ensures CleanDump(ws[i].rounds[j].d4) && CleanDump(ws[i].rounds[j].d6)
  {
    hide IsRun, FlattenAll;
    TableZeroIsNeverDelivered(capacity, ws, ls, i);
    FlattenContains(ws[i].rounds, j);
    var r := ws[i].rounds[j];
    forall x <- r.d4 + r.d6 ensures x.table != 0 {
      NewsHolds(r.d4, x);
      NewsHolds(r.d6, x);
      assert NewNote(x) in News(r.d4) + News(r.d6);
      assert NewNote(x) in Flatten(r);
      assert NewNote(x) in ws[i].fsm.out;
    }
  }

  /* ---- Grammar ---- */

  // (StartOfRIB+ updates EndOfRIB updates)*, and every prefix of it.
  datatype Reading = Fresh | Started | Dumping | Ended | Refused

  function Read1(q: Reading, n: Notification): Reading {
    match (q, n)
    case (Fresh, StartOfRIB) => Started
    case (Started, StartOfRIB) => Started
    case (Started, Update(_)) => Dumping
    case (Started, EndOfRIB) => Ended
    case (Dumping, Update(_)) => Dumping
    case (Dumping, EndOfRIB) => Ended
    case (Ended, Update(_)) => Ended
    case (Ended, StartOfRIB) => Started
    case _ => Refused
  }

  function ReadAll(q: Reading, ns: seq<Notification>): Reading {
    if ns == [] then q else Read1(ReadAll(q, ns[..|ns| - 1]), ns[|ns| - 1])
  }

  lemma {:induction false} ReadAllConcat(q: Reading, a: seq<Notification>, b: seq<Notification>)
    ensures ReadAll(q, a + b) == ReadAll(ReadAll(q, a), b)
    decreases |b|
  {
    if b == [] {
      assert a + b == a;
    } else {
      assert (a + b)[..|a + b| - 1] == a + b[..|b| - 1];
      ReadAllConcat(q, a, b[..|b| - 1]);
    }
  }

  lemma {:induction false} ReadUpdates(q: Reading, us: seq<Notification>)
    requires forall n <- us :: n.Update?
    ensures q == Ended ==> ReadAll(q, us) == Ended
    ensures q == Started || q == Dumping ==> ReadAll(q, us) == if us == [] then q else Dumping
    ensures q == Refused ==> ReadAll(q, us) == Refused
    decreases |us|
  {
    if us != [] {
      ReadUpdates(q, us[..|us| - 1]);
      assert us[|us| - 1] in us;
    }
  }

  lemma {:induction false} RefusedStaysRefused(ns: seq<Notification>)
    ensures ReadAll(Refused, ns) == Refused
    decreases |ns|
  {
    if ns != [] {
      RefusedStaysRefused(ns[..|ns| - 1]);
    }
  }

  lemma ReadRound(q: Reading, r: Round)
    requires q == Fresh || q == Started || q == Ended
    requires r.Scanned? && !r.ended ==> r.live == []
    ensures ReadAll(q, Flatten(r)) != Refused
    ensures Over(r) ==> ReadAll(q, Flatten(r)) == if r.Failed? then Started else Ended
  {
    assert ReadAll(q, [StartOfRIB]) == Started by { assert [StartOfRIB][..0] == []; }
    if r.Scanned? {
      ReadAllConcat(q, [StartOfRIB], News(r.d4));
      ReadUpdates(Started, News(r.d4));
      ReadAllConcat(q, [StartOfRIB] + News(r.d4), News(r.d6));
      ReadUpdates(ReadAll(Started, News(r.d4)), News(r.d6));
      var scan := [StartOfRIB] + News(r.d4) + News(r.d6);
      var end := if r.ended then [EndOfRIB] else [];
      ReadAllConcat(q, scan, end);
      ReadAllConcat(q, scan + end, Updates(r.live));
      assert [EndOfRIB][..0] == [];
      ReadUpdates(Ended, Updates(r.live));
    }
  }

  lemma {:induction false} ReadRounds(rounds: seq<Round>)
    requires forall i | 0 <= i < |rounds| - 1 :: Over(rounds[i])
    requires forall r <- rounds :: r.Scanned? && !r.ended ==> r.live == []
    ensures ReadAll(Fresh, FlattenAll(rounds)) != Refused
    ensures (rounds == [] || Over(rounds[|rounds| - 1])) ==>
              ReadAll(Fresh, FlattenAll(rounds)) == if rounds == [] then Fresh else if rounds[|rounds| - 1].Failed? then Started else Ended
    decreases |rounds|
  {
    if rounds != [] {
      var front, last := rounds[..|rounds| - 1], rounds[|rounds| - 1];
      forall i | 0 <= i < |front| ensures Over(front[i]) {
        assert front[i] == rounds[i];
      }
      assert forall r <- front :: r in rounds;
      ReadRounds(front);
      ReadAllConcat(Fresh, FlattenAll(front), Flatten(last));
      assert last in rounds;
      ReadRound(ReadAll(Fresh, FlattenAll(front)), last);
    }
  }

  // The subscriber only ever sees a prefix of (StartOfRIB+ updates EndOfRIB updates)*. Together
  // with the conservation above, a StartOfRIB whose dump failed (a Failed round) is directly
  // followed by the next StartOfRIB, and one whose dump was made is followed by both dumps and its
  // EndOfRIB before any other.
  lemma NotificationsFollowGrammar(capacity: nat, ws: seq<World>, ls: seq<Label>, i: nat)
    requires IsRun(capacity, ws, ls) && CleanLabels(ls) && i < |ws|
    ensures ReadAll(Fresh, ws[i].fsm.out) != Refused
    ensures forall j | 0 <= j < |ws[i].rounds| - 1 :: Over(ws[i].rounds[j])
  {
    hide IsRun, FlattenAll;
    NotificationsAreConserved(capacity, ws, ls, i);
    EveryRunKeepsInv(capacity, ws, ls, i);
    InvRounds(ws[i]);
    ReadRounds(ws[i].rounds);
    ReadAllConcat(Fresh, ws[i].fsm.out, InFlight(ws[i].fsm));
    RefusedStaysRefused(InFlight(ws[i].fsm));
  }

  lemma InvRounds(w: World)
    requires Inv(w)
    ensures forall i | 0 <= i < |w.rounds| - 1 :: Over(w.rounds[i])
    ensures forall r <- w.rounds :: r.Scanned? && !r.ended ==> r.live == []
  {
    hide Lists, RibOf, WellFormed, FlattenAll, StreamOk, OneWriter;
  }

  /* ---- Retries ---- */

  // A transition that fails leaves the phase alone and is tried again; a second dump that failed
  // is retried alone, without another StartOfRIB and without the first dump.
  lemma RetriesRepeatNothing(capacity: nat, ws: seq<World>, ls: seq<Label>, i: nat, c: Calls)
    requires IsRun(capacity, ws, ls) && CleanLabels(ls) && i < |ls| && ls[i] == TickFires(c)
    ensures ws[i].fsm.producers == [] && !CanReceive(ws[i].fsm)
    ensures ws[i + 1].fsm.tick ==> ws[i + 1].fsm.phase == ws[i].fsm.phase
    ensures ws[i].fsm.phase == Ipv4Routes ==>
              && ws[i + 1].fsm.out == ws[i].fsm.out
              && ws[i + 1].fsm.producers == (if c.outcome.Dump? then [c.outcome.routes] else [])
              && (ws[i + 1].fsm.tick <==> !c.outcome.Dump?)
  {
    EveryRunKeepsInv(capacity, ws, ls, i);
    SilentWhileWaiting(ws[i]);
    TransitionKeepsFlags(ws[i].fsm, c.outcome);
  }
}

/**
 The invariant of the synchroniser: in every reachable world it waits for a transition, streams a
 dump, or follows the live channel, and what was notified plus what is in flight is exactly what
 the scans owe. Routes in table 0 are excluded here, as the source takes them for a closed channel.
 */
module SyncInvariant {
  import opened Options
  import opened Routes
  import opened KernelLog
  import opened SyncSpec
  import opened World

  predicate RoundOk(log: Log, r: Round) {
    r.Scanned? ==>
      && r.sub <= r.t4 <= |log| && Lists(r.d4, RibOf(log[..r.t4]), V4)
      && (if r.t6.Some? then r.t4 <= r.t6.value <= |log| && Lists(r.d6, RibOf(log[..r.t6.value]), V6)
          else r.d6 == [] && !r.ended)
      && (!r.ended ==> r.live == [])
      && r.sub + |r.live| <= |log| && r.live == log[r.sub..r.sub + |r.live|]
  }

  predicate Over(r: Round) {
    r.Failed? || r.ended
  }

  predicate Sane(w: World) {
    && WellFormed(w.log) && Clean(w.log)
    && !w.fsm.panicked
    && (forall r <- w.rounds :: RoundOk(w.log, r))
    && (forall i | 0 <= i < |w.rounds| - 1 :: Over(w.rounds[i]))
    && (w.socket.Some? ==> w.fsm.live.Some? && !w.fsm.live.value.closed)
  }

  // The last round is what the phase says it is.
  predicate PhaseFits(w: World) {
    var last := |w.rounds| - 1;
    match w.fsm.phase
    case Idle => forall r <- w.rounds :: r.Failed?
    case Ipv4Routes => last >= 0 && w.rounds[last].Scanned? && w.rounds[last].t6.None?
    case Ipv6Routes => last >= 0 && w.rounds[last].Scanned? && w.rounds[last].t6.Some? && !w.rounds[last].ended
    case UpdateRoutes => last >= 0 && Over(w.rounds[last])
  }

  // The live channel and the subscription hold, in order, what happened since the subscription and
  // was not delivered; a dead subscription may have lost the end of it.
  predicate StreamOk(w: World) {
    var last := |w.rounds| - 1;
    && last >= 0 && w.rounds[last].Scanned? && w.fsm.live.Some?
    && var r, live := w.rounds[last], w.fsm.live.value;
       && r.sub + |r.live| <= |w.log|
       && var rest := w.log[r.sub + |r.live|..];
          if w.socket.Some? then live.buf + w.socket.value == rest
          else live.closed && live.buf <= rest
  }

  // No channel to read from, or one that nobody writes to.
  predicate Silent(f: Fsm) {
    f.producers == [] && (f.updates == NoChan || f.updates == DumpChan(EMPTY))
  }

  // Between two channels: where every transition is made from.
  predicate Between(w: World) {
    && Sane(w) && PhaseFits(w) && Silent(w.fsm)
    && w.fsm.out == FlattenAll(w.rounds)
    && (w.fsm.phase == Ipv4Routes || w.fsm.phase == Ipv6Routes ==> StreamOk(w))
  }

  predicate Waiting(w: World) {
    && Between(w) && w.fsm.phase != Ipv6Routes
    && (if w.fsm.phase == Idle then w.fsm.subscribed && !w.fsm.tick else w.fsm.tick && !w.fsm.subscribed)
  }

  // One goroutine writes the channel, or the last one closed it.
  predicate OneWriter(f: Fsm) {
    && f.updates.DumpChan?
    && (if f.updates.ch.closed then f.producers == [] else |f.producers| == 1)
    && CleanUpdates(f.updates.ch.buf)
    && forall p <- f.producers :: CleanDump(p)
  }

  predicate Streaming(w: World) {
    && Sane(w) && PhaseFits(w) && StreamOk(w)
    && (w.fsm.phase == Ipv4Routes || w.fsm.phase == Ipv6Routes)
    && !w.fsm.tick && !w.fsm.subscribed && OneWriter(w.fsm)
    && w.fsm.out + InFlight(w.fsm) == FlattenAll(w.rounds)
  }

  predicate Following(w: World) {
    && Sane(w) && PhaseFits(w) && StreamOk(w)
    && w.fsm.phase == UpdateRoutes && w.fsm.updates == LiveChan && w.fsm.producers == []
    && !w.fsm.tick && !w.fsm.subscribed
    && w.fsm.out == FlattenAll(w.rounds)
  }

  predicate Inv(w: World) {
    Waiting(w) || Streaming(w) || Following(w)
  }

  /* ---- The history only grows ---- */

  lemma RoundOkGrows(log: Log, more: Log, r: Round)
    requires RoundOk(log, r)
    ensures RoundOk(log + more, r)
  {
    var l := log + more;
    if r.Scanned? {
      assert l[..r.t4] == log[..r.t4];
      assert l[r.sub..r.sub + |r.live|] == log[r.sub..r.sub + |r.live|];
      if r.t6.Some? {
        assert l[..r.t6.value] == log[..r.t6.value];
      }
    }
  }

  lemma WellFormedGrows(log: Log, u: RouteUpdate)
    requires WellFormed(log) && Legal(RibOf(log), u)
    ensures WellFormed(log + [u])
  {
    var l := log + [u];
    forall i | 0 <= i < |l| ensures Legal(RibOf(l[..i]), l[i]) {
      if i < |log| {
        assert l[..i] == log[..i];
      } else {
        assert l[..i] == log;
      }
    }
  }

  lemma {:induction false} CleanRib(log: Log)
    requires Clean(log)
    ensures forall k <- RibOf(log) :: RibOf(log)[k].table != 0
  {
    if log != [] {
      assert forall u <- log[..|log| - 1] :: u in log;
      CleanRib(log[..|log| - 1]);
      assert log[|log| - 1] in log;
    }
  }

  lemma ListsIsClean(d: seq<Route>, log: Log, f: Family)
    requires Clean(log) && Lists(d, RibOf(log), f)
    ensures CleanDump(d)
  {
    CleanRib(log);
  }

  /* ---- Transitions ---- */

  // Sanity, the phase and the stream do not look at what the component reads or has notified.
  lemma FlagsDoNotMatter(w: World, v: World)
    requires v.log == w.log && v.rounds == w.rounds && v.socket == w.socket
    requires v.fsm.live == w.fsm.live && v.fsm.panicked == w.fsm.panicked && v.fsm.phase == w.fsm.phase
    ensures Sane(v) == Sane(w) && PhaseFits(v) == PhaseFits(w) && StreamOk(v) == StreamOk(w)
  {
  }

  lemma FlattenAppend(rounds: seq<Round>, r: Round)
    ensures FlattenAll(rounds + [r]) == FlattenAll(rounds) + Flatten(r)
  {
    assert (rounds + [r])[..|rounds|] == rounds;
  }

  lemma FlattenReplaceLast(rounds: seq<Round>, r: Round, tail: seq<Notification>)
    requires rounds != [] && Flatten(r) == Flatten(rounds[|rounds| - 1]) + tail
    ensures FlattenAll(rounds[|rounds| - 1 := r]) == FlattenAll(rounds) + tail
  {
    hide Flatten, FlattenAll;
    var front, last := rounds[..|rounds| - 1], rounds[|rounds| - 1];
    assert rounds[|rounds| - 1 := r] == front + [r];
    assert rounds == front + [last];
    FlattenAppend(front, r);
    FlattenAppend(front, last);
    Regroup(FlattenAll(front), Flatten(last), tail);
  }

  // Where the netlink calls of a transition lead, before the flags are updated.
  function Moved(w: World, c: Calls): World {
    Netlink(w, c).(fsm := Transition(w.fsm, c.outcome).0)
  }

  predicate Done(w: World, c: Calls) {
    Transition(w.fsm, c.outcome).1
  }

  function Rested(w: World): World {
    w.(fsm := w.fsm.(tick := false, subscribed := false))
  }

  lemma NewRoundOk(log: Log, sub: nat, d4: seq<Route>)
    requires sub <= |log| && Lists(d4, RibOf(log), V4)
    ensures RoundOk(log, Scanned(sub, |log|, d4, None, [], false, []))
  {
    assert log[..|log|] == log;
    assert log[sub..sub + 0] == [];
  }

  lemma SecondDumpOk(log: Log, r: Round, d6: seq<Route>)
    requires RoundOk(log, r) && r.Scanned? && r.t6.None? && Lists(d6, RibOf(log), V6)
    ensures RoundOk(log, r.(t6 := Some(|log|), d6 := d6))
  {
    hide Lists, RibOf;
    assert log[..|log|] == log;
  }

  lemma SecondDumpOwed(r: Round, d6: seq<Route>, t6: nat)
    requires r.Scanned? && r.d6 == [] && !r.ended && r.live == []
    ensures Flatten(r) == [StartOfRIB] + News(r.d4)
    ensures Flatten(r.(t6 := Some(t6), d6 := d6)) == Flatten(r) + News(d6)
  {
    assert News([]) == [] && Updates([]) == [];
    assert Flatten(r) == [StartOfRIB] + News(r.d4) + [] + [] + [];
  }

  lemma SaneAfterResubscription(w: World, c: Calls)
    requires Sane(w) && Resubscribes(w.fsm) && CallsOk(w, c) && Clean(LogAfter(w, c))
    requires |w.rounds| > 0 ==> Over(w.rounds[|w.rounds| - 1])
    ensures Sane(Moved(w, c))
  {
    hide RoundOk, Lists, RibOf, WellFormed, Clean;
    var v := Moved(w, c);
    if c.outcome.Dump? {
      NewRoundOk(v.log, |w.log|, c.outcome.routes);
    }
    forall r <- w.rounds ensures RoundOk(v.log, r) {
      if v.log != w.log {
        RoundOkGrows(w.log, c.meanwhile, r);
      }
    }
    FailedIsOk(v.log);
  }

  lemma StreamStarts(log: Log, meanwhile: seq<RouteUpdate>)
    ensures [] + meanwhile == (log + meanwhile)[|log|..]
  {
  }

  lemma FailedIsOk(log: Log)
    ensures RoundOk(log, Failed)
  {
  }

  lemma FirstDumpOwed(w: World, c: Calls)
    requires Between(w) && Resubscribes(w.fsm) && c.outcome.Dump?
    ensures var v := Moved(w, c); v.fsm.out + InFlight(v.fsm) == FlattenAll(v.rounds)
  {
    hide Sane, PhaseFits, StreamOk, FlattenAll, Flatten, InFlight;
    var v, d4 := Moved(w, c), c.outcome.routes;
    var r := v.rounds[|w.rounds|];
    FlattenAppend(w.rounds, r);
    SecondDumpOwed(r, [], 0);
    OnlyDumpInFlight(v.fsm, d4);
    Regroup(w.fsm.out, [StartOfRIB], News(d4));
  }

  lemma FirstDumpStreams(w: World, c: Calls)
    requires Resubscribes(w.fsm) && c.outcome.Dump?
    ensures StreamOk(Moved(w, c))
  {
    var v := Moved(w, c);
    StreamStarts(w.log, c.meanwhile);
    assert v.rounds[|v.rounds| - 1].sub + |v.rounds[|v.rounds| - 1].live| == |w.log|;
  }

  lemma ResubscriptionWorks(w: World, c: Calls)
    requires Between(w) && Resubscribes(w.fsm) && CallsOk(w, c) && Clean(LogAfter(w, c))
    ensures Done(w, c) ==> Streaming(Rested(Moved(w, c)))
    ensures !Done(w, c) ==> Between(Moved(w, c)) && Moved(w, c).fsm.phase == w.fsm.phase
  {
    hide RoundOk, Lists, RibOf, WellFormed, Clean, CleanDump, StreamOk, FlattenAll;
    assert |w.rounds| > 0 ==> w.rounds[|w.rounds| - 1] in w.rounds;
    SaneAfterResubscription(w, c);
    match c.outcome
    case SubscribeFails =>
    case DumpFails => FlattenAppend(w.rounds, Failed);
    case Dump(d4) =>
      ListsIsClean(d4, LogAfter(w, c), V4);
      FirstDumpOwed(w, c);
      FirstDumpStreams(w, c);
      FlagsDoNotMatter(Moved(w, c), Rested(Moved(w, c)));
  }

  lemma SecondDumpFlows(w: World, c: Calls)
    requires Between(w) && w.fsm.phase == Ipv4Routes && c.outcome.Dump?
    ensures var v := Moved(w, c); v.fsm.out + InFlight(v.fsm) == FlattenAll(v.rounds)
  {
    hide Lists, RibOf, WellFormed, Clean, Flatten, FlattenAll, StreamOk, InFlight;
    var v, last, d6 := Moved(w, c), |w.rounds| - 1, c.outcome.routes;
    assert w.rounds[last] in w.rounds;
    SecondDumpOwed(w.rounds[last], d6, |w.log|);
    FlattenReplaceLast(w.rounds, v.rounds[last], News(d6));
    OnlyDumpInFlight(v.fsm, d6);
  }

  lemma OnlyDumpInFlight(f: Fsm, d: seq<Route>)
    requires f.updates == DumpChan(EMPTY) && f.producers == [d]
    ensures InFlight(f) == News(d)
  {
  }

  lemma SecondDumpStreams(w: World, c: Calls)
    requires Between(w) && w.fsm.phase == Ipv4Routes && c.outcome.Dump?
    ensures StreamOk(Moved(w, c))
  {
    hide Lists, RibOf, WellFormed, Clean, FlattenAll, RoundOk, InFlight;
    var v, last := Moved(w, c), |w.rounds| - 1;
    assert v.rounds[last] == w.rounds[last].(t6 := Some(|w.log|), d6 := c.outcome.routes);
  }

  lemma SecondDumpSane(w: World, c: Calls)
    requires Between(w) && w.fsm.phase == Ipv4Routes && CallsOk(w, c) && c.outcome.Dump?
    ensures Sane(Moved(w, c)) && CleanDump(c.outcome.routes)
  {
    hide RoundOk, Lists, RibOf, WellFormed, Clean, CleanDump, StreamOk, FlattenAll;
    var v, last, d6 := Moved(w, c), |w.rounds| - 1, c.outcome.routes;
    assert w.rounds[last] in w.rounds;
    ListsIsClean(d6, w.log, V6);
    SecondDumpOk(w.log, w.rounds[last], d6);
    forall r <- v.rounds ensures RoundOk(v.log, r) {
      if r != v.rounds[last] {
        assert r in w.rounds;
      }
    }
  }

  lemma DumpHasOneWriter(f: Fsm, d: seq<Route>)
    requires f.updates == DumpChan(EMPTY) && f.producers == [d] && CleanDump(d)
    ensures OneWriter(f)
  {
  }

  lemma SecondDumpFits(w: World, c: Calls)
    requires Between(w) && w.fsm.phase == Ipv4Routes && c.outcome.Dump?
    ensures PhaseFits(Moved(w, c))
  {
    hide Sane, StreamOk, FlattenAll;
    RoundNotEndedYet(w);
  }

  lemma SecondDumpWorks(w: World, c: Calls)
    requires Between(w) && w.fsm.phase == Ipv4Routes && CallsOk(w, c) && c.outcome.Dump?
    ensures Done(w, c) && Streaming(Rested(Moved(w, c)))
  {
    hide Sane, StreamOk, PhaseFits, FlattenAll, CallsOk, CleanDump, OneWriter, InFlight;
    SecondDumpSane(w, c);
    SecondDumpFits(w, c);
    SecondDumpFlows(w, c);
    SecondDumpStreams(w, c);
    var v := Moved(w, c);
    FlagsDoNotMatter(v, Rested(v));
    DumpHasOneWriter(Rested(v).fsm, c.outcome.routes);
    OnlyDumpInFlight(v.fsm, c.outcome.routes);
    OnlyDumpInFlight(Rested(v).fsm, c.outcome.routes);
  }

  lemma SecondDumpRetries(w: World, c: Calls)
    requires Between(w) && w.fsm.phase == Ipv4Routes && !c.outcome.Dump?
    ensures !Done(w, c) && Between(Moved(w, c)) && Moved(w, c).fsm.phase == w.fsm.phase
  {
    hide Sane, StreamOk, FlattenAll;
    FlagsDoNotMatter(w, Moved(w, c));
  }

  lemma RoundNotEndedYet(w: World)
    requires Between(w) && w.fsm.phase == Ipv4Routes
    ensures !w.rounds[|w.rounds| - 1].ended
  {
    assert w.rounds[|w.rounds| - 1] in w.rounds;
  }

  lemma EndOwed(log: Log, r: Round)
    requires RoundOk(log, r) && r.Scanned? && r.t6.Some? && !r.ended
    ensures RoundOk(log, r.(ended := true))
    ensures Flatten(r.(ended := true)) == Flatten(r) + [EndOfRIB]
  {
    hide Lists, RibOf;
    assert Updates([]) == [];
    var scan := [StartOfRIB] + News(r.d4) + News(r.d6);
    assert Flatten(r) == scan + [] + [] && Flatten(r.(ended := true)) == scan + [EndOfRIB] + [];
  }

  lemma SwitchToLiveWorks(w: World, c: Calls)
    requires Between(w) && w.fsm.phase == Ipv6Routes
    ensures Done(w, c) && Following(Rested(Moved(w, c)))
  {
    hide Lists, RibOf, WellFormed, Clean, RoundOk, Flatten, FlattenAll;
    var v, last := Moved(w, c), |w.rounds| - 1;
    assert w.rounds[last] in w.rounds;
    EndOwed(w.log, w.rounds[last]);
    FlattenReplaceLast(w.rounds, v.rounds[last], [EndOfRIB]);
    forall r <- v.rounds ensures RoundOk(v.log, r) {
      if r != v.rounds[last] {
        assert r in w.rounds;
      }
    }
  }

  lemma TransitionWorks(w: World, c: Calls)
    requires Between(w) && CallsOk(w, c) && Clean(LogAfter(w, c))
    ensures Done(w, c) ==> Inv(Rested(Moved(w, c)))
    ensures !Done(w, c) ==> Between(Moved(w, c)) && Moved(w, c).fsm.phase == w.fsm.phase != Ipv6Routes
  {
    match w.fsm.phase
    case Idle => ResubscriptionWorks(w, c);
    case UpdateRoutes => ResubscriptionWorks(w, c);
    case Ipv4Routes =>
      if c.outcome.Dump? {
        SecondDumpWorks(w, c);
      } else {
        SecondDumpRetries(w, c);
      }
    case Ipv6Routes => SwitchToLiveWorks(w, c);
  }
}

/**
 Recovery: once the live channel is closed, even in the middle of a dump, and the netlink calls
 succeed from then on, the component inevitably starts another scan and completes it.
 */
module Recovery {
  import opened Options
  import opened Routes
  import opened KernelLog
  import opened SyncSpec
  import opened World
  import opened SyncInvariant
  import opened SyncRuns

  // What happens around the component: the kernel changes routes, the subscription reads or dies.
  predicate Around(l: Label) {
    (l.KernelChanges? || l.SocketRead? || l.SocketDies?) && CleanLabel(l)
  }

  function AfterAround(capacity: nat, w: World, es: seq<Label>): Option<World> {
    if es == [] then Some(w)
    else
      match AfterAround(capacity, w, es[..|es| - 1])
      case None => None
      case Some(v) =>
        var l := es[|es| - 1];
        if Around(l) && Enabled(capacity, v, l) then Some(Next(capacity, v, l)) else None
  }

  ghost predicate Drifts(capacity: nat, w: World, v: World) {
    exists es :: AfterAround(capacity, w, es) == Some(v)
  }

  // What the component and its goroutines do, when the netlink calls succeed.
  predicate Works(l: Label) {
    CleanLabel(l) &&
    match l
    case SocketHandsOver(c) => c.outcome.Dump?
    case HandsOver(_, c) => c.outcome.Dump?
    case Receives(c) => c.outcome.Dump?
    case TickFires(c) => c.outcome.Dump?
    case Subscribes(c) => c.outcome.Dump?
    case Sends(_) => true
    case Closes(_) => true
    case _ => false
  }

  predicate CanWork(capacity: nat, w: World, l: Label) {
    Works(l) && Enabled(capacity, w, l)
  }

  // A round started after the first `base` ones has ended.
  predicate Recovered(base: nat, w: World) {
    |w.rounds| > base && w.rounds[|w.rounds| - 1].Scanned? && w.rounds[|w.rounds| - 1].ended
  }

  // Whatever happens around the component, it can always work, and every way of working leads,
  // after finitely many steps, to the end of a new scan.
  least predicate Recovers(capacity: nat, base: nat, w: World) {
    || Recovered(base, w)
    || (&& (forall v :: Drifts(capacity, w, v) ==> exists l :: CanWork(capacity, v, l))
        && (forall v, l :: Drifts(capacity, w, v) && CanWork(capacity, v, l) ==>
              Recovers(capacity, base, Next(capacity, v, l))))
  }

  /* ---- The measure ---- */

  predicate OnTheWay(base: nat, w: World) {
    && Inv(w)
    && (|| (|w.rounds| == base && (w.fsm.phase == Ipv4Routes || w.fsm.phase == Ipv6Routes || Following(w) ==> w.socket.None?))
        || (|w.rounds| == base + 1 && w.rounds[base].Scanned? && (Waiting(w) ==> w.fsm.phase == Ipv4Routes)))
  }

  function Rank(base: nat, w: World): nat {
    var extra := if |w.rounds| == base then 4 else 0;
    match w.fsm.phase
    case Ipv4Routes => extra + 3
    case Ipv6Routes => extra + 2
    case UpdateRoutes => if w.fsm.tick then extra else extra + 1
    case Idle => extra
  }

  function Effort(w: World): nat {
    match w.fsm.updates
    case NoChan => 0
    case LiveChan => if w.fsm.live.Some? then |w.fsm.live.value.buf| else 0
    case DumpChan(ch) =>
      2 * (if |w.fsm.producers| == 1 then |w.fsm.producers[0]| else 0) + |ch.buf| + if ch.closed then 0 else 1
  }

  lemma AroundKeeps(capacity: nat, base: nat, w: World, l: Label)
    requires OnTheWay(base, w) && !Recovered(base, w) && Around(l) && Enabled(capacity, w, l)
    ensures var v := Next(capacity, w, l);
            OnTheWay(base, v) && !Recovered(base, v) && Rank(base, v) == Rank(base, w) && Effort(v) == Effort(w)
  {
    hide Sane, StreamOk, FlattenAll, PhaseFits, OneWriter, InFlight, RibOf, Legal;
    StepKeepsInv(capacity, w, l);
    Situation(w);
    Situation(Next(capacity, w, l));
  }

  // What the invariant says about the phases, briefly.
  lemma Situation(w: World)
    requires Inv(w)
    ensures Following(w) <==> w.fsm.updates == LiveChan
    ensures Waiting(w) <==> w.fsm.tick || w.fsm.phase == Idle
    ensures Following(w) ==> w.fsm.live.Some? && w.fsm.phase == UpdateRoutes && w.rounds != []
                             && w.rounds[|w.rounds| - 1].Scanned? && w.rounds[|w.rounds| - 1].ended
    ensures Streaming(w) ==> w.rounds != [] && w.rounds[|w.rounds| - 1].Scanned? && !w.rounds[|w.rounds| - 1].ended
    ensures Following(w) && w.socket.None? ==> w.fsm.live.value.closed
  {
    if w.rounds != [] {
      assert w.rounds[|w.rounds| - 1] in w.rounds;
    }
  }

  lemma {:induction false} DriftKeeps(capacity: nat, base: nat, w: World, es: seq<Label>)
    requires OnTheWay(base, w) && !Recovered(base, w) && AfterAround(capacity, w, es).Some?
    ensures var v := AfterAround(capacity, w, es).value;
            OnTheWay(base, v) && !Recovered(base, v) && Rank(base, v) == Rank(base, w) && Effort(v) == Effort(w)
    decreases |es|
  {
    hide OnTheWay, Recovered, Rank, Effort, Around, Enabled, Next;
    if es != [] {
      DriftKeeps(capacity, base, w, es[..|es| - 1]);
      AroundKeeps(capacity, base, AfterAround(capacity, w, es[..|es| - 1]).value, es[|es| - 1]);
    }
  }

  /* ---- Work decreases the measure ---- */

  lemma GoroutineWorks(base: nat, w: World, i: nat)
    requires OnTheWay(base, w)
    ensures CanSend(w.fsm, i) ==>
              var v := w.(fsm := Send(w.fsm, i)); OnTheWay(base, v) && Rank(base, v) == Rank(base, w) && Effort(v) < Effort(w)
    ensures CanClose(w.fsm, i) ==>
              var v := w.(fsm := Close(w.fsm, i)); OnTheWay(base, v) && Rank(base, v) == Rank(base, w) && Effort(v) < Effort(w)
  {
    hide Sane, StreamOk, FlattenAll, PhaseFits, InFlight, CleanDump, CleanUpdates;
    if i < |w.fsm.producers| {
      OnlyStreamingHasGoroutines(w);
      Situation(w);
      if CanSend(w.fsm, i) {
        SendKeepsInv(w, i);
        Situation(w.(fsm := Send(w.fsm, i)));
      }
      if CanClose(w.fsm, i) {
        CloseKeepsInv(w, i);
        Situation(w.(fsm := Close(w.fsm, i)));
      }
    }
  }

  predicate Closer(base: nat, v: World, w: World) {
    OnTheWay(base, v) && (Rank(base, v) < Rank(base, w) || (Rank(base, v) == Rank(base, w) && Effort(v) < Effort(w)))
  }

  lemma ReceivingWorks(base: nat, w: World, c: Calls)
    requires OnTheWay(base, w) && !Recovered(base, w) && CanReceive(w.fsm)
    requires CallsOk(w, c) && Clean(LogAfter(w, c)) && c.outcome.Dump?
    ensures Closer(base, Received(w, c), w)
  {
    hide Sane, StreamOk, FlattenAll, PhaseFits, InFlight, CallsOk, LogAfter, CleanDump, CleanUpdates;
    SilentWhileWaiting(w);
    Situation(w);
    ReceiveKeepsInv(w, c);
    Situation(Received(w, c));
    HeadIsClean(w);
  }

  // The component never mistakes a route for the end of its channel.
  lemma HeadIsClean(w: World)
    requires Inv(w) && CanReceive(w.fsm)
    ensures Sentinels(w.fsm) <==> Wired(w.fsm).value.buf == []
  {
    if Following(w) && w.fsm.live.value.buf != [] {
      LiveHeadIsClean(w);
    }
  }

  lemma TransitionsWork(base: nat, w: World, c: Calls)
    requires OnTheWay(base, w) && CallsOk(w, c) && Clean(LogAfter(w, c)) && c.outcome.Dump?
    ensures w.fsm.tick ==> Closer(base, Netlink(w, c).(fsm := FireTick(w.fsm, c.outcome)), w)
    ensures w.fsm.subscribed ==> Closer(base, Netlink(w, c).(fsm := FirstSubscriber(w.fsm, c.outcome)), w)
  {
    hide Sane, StreamOk, FlattenAll, InFlight, CallsOk, CleanDump, CleanUpdates;
    Situation(w);
    if w.fsm.tick {
      TickKeepsInv(w, c);
      Situation(Netlink(w, c).(fsm := FireTick(w.fsm, c.outcome)));
    }
    if w.fsm.subscribed {
      SubscriptionKeepsInv(w, c);
      Situation(Netlink(w, c).(fsm := FirstSubscriber(w.fsm, c.outcome)));
    }
  }

  lemma WorkGetsCloser(capacity: nat, base: nat, w: World, l: Label)
    requires OnTheWay(base, w) && !Recovered(base, w) && CanWork(capacity, w, l)
    ensures Closer(base, Next(capacity, w, l), w)
  {
    hide Sane, StreamOk, FlattenAll, PhaseFits, InFlight, CallsOk, CleanDump, OneWriter, Rank, Effort, Netlink, Received, Send, Close, FireTick, FirstSubscriber;
    InvIsClean(w);
    match l
    case SocketHandsOver(c) => Situation(w);
    case Sends(i) => GoroutineWorks(base, w, i);
    case Closes(i) => GoroutineWorks(base, w, i);
    case HandsOver(i, c) =>
      CleanAfterCalls(w, c);
      GoroutineWorks(base, w, i);
      SendKeepsCalls(w, i, c);
      SendKeepsRounds(w.fsm, i);
      ReceivingWorks(base, w.(fsm := Send(w.fsm, i)), c);
    case Receives(c) =>
      CleanAfterCalls(w, c);
      ReceivingWorks(base, w, c);
    case TickFires(c) =>
      CleanAfterCalls(w, c);
      TransitionsWork(base, w, c);
    case Subscribes(c) =>
      CleanAfterCalls(w, c);
      TransitionsWork(base, w, c);
  }

  lemma SendKeepsRounds(f: Fsm, i: nat)
    requires CanSend(f, i)
    ensures Send(f, i).phase == f.phase
  {
  }

  /* ---- There is always work to do ---- */

  // Every table has a dump.
  lemma {:induction false} DumpExists(rib: Rib, f: Family, keys: set<Slot>) returns (d: seq<Route>)
    requires keys <= rib.Keys && forall k <- rib :: SlotOf(rib[k]) == k
    ensures forall r <- d :: SlotOf(r) in keys && rib[SlotOf(r)] == r && InFamily(f, r)
    ensures forall i, j | 0 <= i < j < |d| :: SlotOf(d[i]) != SlotOf(d[j])
    ensures forall k <- keys :: InFamily(f, rib[k]) ==> rib[k] in d
    decreases |keys|
  {
    if keys == {} {
      d := [];
    } else {
      var k :| k in keys;
      var rest := DumpExists(rib, f, keys - {k});
      d := rest;
      if InFamily(f, rib[k]) {
        assert forall r <- rest :: SlotOf(r) != k;
        d := rest + [rib[k]];
      }
    }
  }

  lemma SuccessfulCallsExist(w: World) returns (c: Calls)
    requires WellFormed(w.log) && Clean(w.log)
    ensures CallsOk(w, c) && CleanCalls(c) && c.outcome.Dump?
  {
    hide WellFormed, RibOf, InFamily, CleanDump;
    var f := if Resubscribes(w.fsm) then V4 else V6;
    RibKeys(w.log);
    var d := DumpExists(RibOf(w.log), f, RibOf(w.log).Keys);
    c := Calls(Dump(d), []);
    assert LogAfter(w, c) == w.log;
    ListsIsClean(d, w.log, f);
  }

  lemma RibKeys(log: Log)
    ensures forall k <- RibOf(log) :: SlotOf(RibOf(log)[k]) == k
  {
  }

  lemma InvIsWellFormed(w: World)
    requires Inv(w)
    ensures WellFormed(w.log) && Clean(w.log) && !w.fsm.panicked
  {
  }

  lemma NeverDeadlocked(capacity: nat, base: nat, w: World)
    requires OnTheWay(base, w) && !Recovered(base, w)
    ensures exists l :: CanWork(capacity, w, l)
  {
    hide Sane, StreamOk, FlattenAll, PhaseFits, CallsOk, CleanDump, CleanUpdates, InFlight;
    InvIsWellFormed(w);
    Situation(w);
    var c := SuccessfulCallsExist(w);
    var f := w.fsm;
    if f.tick {
      assert CanWork(capacity, w, TickFires(c));
    } else if f.phase == Idle {
      assert CanWork(capacity, w, Subscribes(c));
    } else if CanReceive(f) {
      assert CanWork(capacity, w, Receives(c));
    } else if Streaming(w) && f.producers[0] == [] {
      assert CanWork(capacity, w, Closes(0));
    } else {
      assert CanWork(capacity, w, HandsOver(0, c));
    }
  }

  /* ---- Recovery ---- */

  lemma {:induction false} RecoveryFromOnTheWay(capacity: nat, base: nat, w: World)
    requires OnTheWay(base, w)
    ensures Recovers(capacity, base, w)
    decreases Rank(base, w), Effort(w)
  {
    hide OnTheWay, Works, Enabled, Next, Rank, Effort, AfterAround, Closer;
    if !Recovered(base, w) {
      forall v | Drifts(capacity, w, v) ensures exists l :: CanWork(capacity, v, l) {
        var es :| AfterAround(capacity, w, es) == Some(v);
        DriftKeeps(capacity, base, w, es);
        NeverDeadlocked(capacity, base, v);
      }
      forall v, l | Drifts(capacity, w, v) && CanWork(capacity, v, l)
        ensures Recovers(capacity, base, Next(capacity, v, l))
      {
        var es :| AfterAround(capacity, w, es) == Some(v);
        DriftKeeps(capacity, base, w, es);
        WorkGetsCloser(capacity, base, v, l);
        CloserMeans(base, Next(capacity, v, l), v);
        RecoveryFromOnTheWay(capacity, base, Next(capacity, v, l));
      }
    }
  }

  lemma CloserMeans(base: nat, v: World, w: World)
    requires Closer(base, v, w)
    ensures OnTheWay(base, v)
    ensures Rank(base, v) < Rank(base, w) || (Rank(base, v) == Rank(base, w) && Effort(v) < Effort(w))
  {
  }

  // From every reachable world whose live channel is closed, or that has no scan under way, and
  // whatever the channel capacity.
  lemma RecoveryIsInevitable(capacity: nat, ws: seq<World>, ls: seq<Label>, i: nat)
    requires IsRun(capacity, ws, ls) && CleanLabels(ls) && i < |ws|
    requires var f := ws[i].fsm;
             || f.phase == Idle
             || (f.phase == UpdateRoutes && f.tick)
             || (f.live.Some? && f.live.value.closed)
    ensures Recovers(capacity, |ws[i].rounds|, ws[i])
  {
    hide IsRun;
    EveryRunKeepsInv(capacity, ws, ls, i);
    ClosedMeansDead(ws[i]);
    RecoveryFromOnTheWay(capacity, |ws[i].rounds|, ws[i]);
  }

  lemma ClosedMeansDead(w: World)
    requires Inv(w)
    requires w.fsm.phase == Idle || (w.fsm.phase == UpdateRoutes && w.fsm.tick) || (w.fsm.live.Some? && w.fsm.live.value.closed)
    ensures OnTheWay(|w.rounds|, w)
  {
  }

  // A scan whose first dump was made inevitably reaches its EndOfRIB, whatever becomes of the
  // live channel meanwhile.
  lemma ScansInevitablyEnd(capacity: nat, ws: seq<World>, ls: seq<Label>, i: nat)
    requires IsRun(capacity, ws, ls) && CleanLabels(ls) && i < |ws|
    requires ws[i].fsm.phase == Ipv4Routes || ws[i].fsm.phase == Ipv6Routes
    ensures |ws[i].rounds| > 0 && Recovers(capacity, |ws[i].rounds| - 1, ws[i])
  {
    hide IsRun;
    EveryRunKeepsInv(capacity, ws, ls, i);
    ScanIsOnTheWay(ws[i]);
    RecoveryFromOnTheWay(capacity, |ws[i].rounds| - 1, ws[i]);
  }

  lemma ScanIsOnTheWay(w: World)
    requires Inv(w) && (w.fsm.phase == Ipv4Routes || w.fsm.phase == Ipv6Routes)
    ensures |w.rounds| > 0 && OnTheWay(|w.rounds| - 1, w)
  {
  }
}

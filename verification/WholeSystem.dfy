/**
 The kernel, the synchroniser and a gateway that installs routes into that kernel: every
 interleaving of them, with every loss and delay the synchroniser allows. While the subscription
 lives the system is the loop of ClosedLoop.dfy; what a rescan makes of the losses before decides
 whether the gateway is right about its copy.
 */
module WholeSystem {
  import opened Options
  import opened IPNets
  import opened Routes
  import opened Configuration
  import opened GatewaySpec
  import opened Candidates
  import opened GatewayRuns
  import opened KernelLog
  import opened CatchUp
  import opened SyncSpec
  import opened World
  import opened SyncInvariant
  import opened SyncRuns
  import opened EndToEnd
  import opened ClosedLoop
  import opened Recovery

  // `done` of the notifications have been processed by the gateway.
  datatype System = System(world: World, gw: State, done: nat)

  const ORIGIN := System(START, GatewaySpec.INITIAL, 0)

  datatype Turn = Runs(l: Label) | Processes | Accepted | Refused

  predicate CanTry(s: System) {
    s.gw.tick && s.gw.current.Some?
  }

  // AddRoute succeeds: the kernel's history goes on with the installed route.
  function Echo(s: System): Label
    requires CanTry(s)
  {
    KernelChanges(RouteUpdate(NewRoute, Handed(s.gw)))
  }

  predicate CanTurn(capacity: nat, cfg: LRG, s: System, t: Turn) {
    match t
    case Runs(l) => Enabled(capacity, s.world, l) && CleanLabel(l)
    case Processes => s.done < |s.world.fsm.out| && Sound(cfg, s.gw.candidates)
    case Accepted => CanTry(s) && Enabled(capacity, s.world, Echo(s))
    case Refused => CanTry(s)
  }

  function AfterTurn(capacity: nat, cfg: LRG, s: System, t: Turn): System
    requires CanTurn(capacity, cfg, s, t)
  {
    match t
    case Runs(l) => s.(world := Next(capacity, s.world, l))
    case Processes => s.(gw := Step(cfg, s.gw, s.world.fsm.out[s.done]), done := s.done + 1)
    case Accepted => s.(gw := Tick(s.gw, true), world := Next(capacity, s.world, Echo(s)))
    case Refused => s.(gw := Tick(s.gw, false))
  }

  predicate IsSystemRun(capacity: nat, cfg: LRG, ss: seq<System>, ts: seq<Turn>) {
    && |ss| == |ts| + 1 && ss[0] == ORIGIN
    && forall i | 0 <= i < |ts| :: CanTurn(capacity, cfg, ss[i], ts[i]) && ss[i + 1] == AfterTurn(capacity, cfg, ss[i], ts[i])
  }

  /* ---- What the gateway's belief rests on ---- */

  function Base(rounds: seq<Round>): nat
    requires rounds != []
  {
    |FlattenAll(rounds[..|rounds| - 1])|
  }

  // How much of the history notification `j` of a round accounts for at least: the dumps for what
  // preceded the subscription, a live event for itself and all before it.
  function Stamp(r: Round, j: nat): nat {
    if r.Failed? then 0
    else if r.ended && j >= 2 + |r.d4| + |r.d6| then r.sub + j - (1 + |r.d4| + |r.d6|)
    else r.sub
  }

  // Of the last round, the gateway has processed nothing about slot `k` that is later than `b`.
  predicate Heard(cfg: LRG, rounds: seq<Round>, done: nat, k: Slot, b: nat) {
    rounds != [] ==>
      var r := rounds[|rounds| - 1];
      forall j | 0 <= j < |Flatten(r)| && Base(rounds) + j < done ::
        Says(cfg, Flatten(r)[j], k).Some? ==> Stamp(r, j) <= b
  }

  // The kernel held route `c` once its history had length `b`, and the gateway has processed
  // nothing later about that slot.
  predicate FoundedAt(cfg: LRG, w: World, done: nat, c: Route, b: nat) {
    b <= |w.log| && HeldAt(RibOf(w.log[..b]), SlotOf(c)) == Some(Id(c)) && Heard(cfg, w.rounds, done, SlotOf(c), b)
  }

  predicate Founded(cfg: LRG, w: World, done: nat, c: Route) {
    exists b | 0 <= b <= |w.log| :: FoundedAt(cfg, w, done, c, b)
  }

  predicate SystemOk(cfg: LRG, s: System) {
    && Inv(s.world) && s.done <= |s.world.fsm.out| && Healthy(cfg, s.gw)
    && SameDecisions(s.gw, Run(cfg, GatewaySpec.INITIAL, s.world.fsm.out[..s.done]))
    && (!s.gw.tick && s.gw.current.Some? ==> Founded(cfg, s.world, s.done, s.gw.current.value))
  }

  lemma OutIsOwed(w: World)
    requires Inv(w)
    ensures |w.fsm.out| <= |FlattenAll(w.rounds)|
    ensures forall i | 0 <= i < |w.fsm.out| :: w.fsm.out[i] == FlattenAll(w.rounds)[i]
  {
    hide Sane, PhaseFits, StreamOk, OneWriter, InFlight, FlattenAll;
    assert Streaming(w) ==> w.fsm.out + InFlight(w.fsm) == FlattenAll(w.rounds);
  }

  lemma FlattenSplits(rounds: seq<Round>)
    requires rounds != []
    ensures FlattenAll(rounds) == FlattenAll(rounds[..|rounds| - 1]) + Flatten(rounds[|rounds| - 1])
  {
  }

  lemma ListedIsHeld(d: seq<Route>, rib: Rib, f: Family, i: nat)
    requires Lists(d, rib, f) && i < |d|
    ensures HeldAt(rib, SlotOf(d[i])) == Some(Id(d[i]))
  {
    hide SlotOf, Id, InFamily;
    assert d[i] in d;
  }

  lemma AnnouncedIsHeld(log: Log, i: nat)
    requires i < |log| && log[i].kind == NewRoute
    ensures HeldAt(RibOf(log[..i + 1]), SlotOf(log[i].route)) == Some(Id(log[i].route))
  {
    hide SlotOf, Id;
    RibStep(log, i);
  }

  // A route shown in a round was there when the round's history had some length.
  lemma ShowIsTrue(log: Log, r: Round, j: nat, x: Route) returns (b: nat)
    requires RoundOk(log, r) && j < |Flatten(r)| && Flatten(r)[j] == NewNote(x)
    ensures b <= |log| && HeldAt(RibOf(log[..b]), SlotOf(x)) == Some(Id(x)) && Stamp(r, j) <= b
  {
    hide SlotOf, Id, RibOf, Lists, HeldAt;
    var end := 1 + |r.d4| + |r.d6|;
    if j < 1 + |r.d4| {
      b := r.t4;
      assert r.d4[j - 1] == x;
      ListedIsHeld(r.d4, RibOf(log[..r.t4]), V4, j - 1);
    } else if j < end {
      b := r.t6.value;
      assert r.d6[j - 1 - |r.d4|] == x;
      ListedIsHeld(r.d6, RibOf(log[..r.t6.value]), V6, j - 1 - |r.d4|);
    } else {
      var i := r.sub + (j - end - 1);
      assert r.live[j - end - 1] == log[i];
      b := i + 1;
      AnnouncedIsHeld(log, i);
    }
  }

  lemma StampsGrow(r: Round, i: nat, j: nat)
    ensures i <= j ==> Stamp(r, i) <= Stamp(r, j)
  {
  }

  lemma StampInLog(log: Log, r: Round, j: nat)
    requires RoundOk(log, r) && j < |Flatten(r)|
    ensures Stamp(r, j) <= |log|
  {
    hide Lists, RibOf;
  }

  lemma {:induction false} ShowFounds(cfg: LRG, log: Log, rounds: seq<Round>, i: nat, x: Route, k: Slot) returns (b: nat)
    requires forall r <- rounds :: RoundOk(log, r)
    requires i < |FlattenAll(rounds)| && FlattenAll(rounds)[i] == NewNote(x)
    ensures b <= |log| && HeldAt(RibOf(log[..b]), SlotOf(x)) == Some(Id(x))
    ensures Heard(cfg, rounds, i + 1, k, b)
    decreases |rounds|
  {
    hide RoundOk, Flatten, SlotOf, Id, RibOf, Says, Stamp;
    var front, r := rounds[..|rounds| - 1], rounds[|rounds| - 1];
    assert r in rounds && forall q <- front :: q in rounds;
    if i < Base(rounds) {
      b := ShowFounds(cfg, log, front, i, x, k);
    } else {
      b := ShowIsTrue(log, r, i - Base(rounds), x);
      forall j | 0 <= j < |Flatten(r)| && Base(rounds) + j < i + 1 ensures Stamp(r, j) <= b {
        StampsGrow(r, j, i - Base(rounds));
      }
    }
  }

  lemma RoundsAreOk(w: World)
    requires Inv(w)
    ensures forall r <- w.rounds :: RoundOk(w.log, r)
    ensures WellFormed(w.log)
  {
    hide RoundOk, WellFormed;
  }

  lemma HeardOneMore(cfg: LRG, rounds: seq<Round>, done: nat, k: Slot, b: nat)
    requires done < |FlattenAll(rounds)| && Says(cfg, FlattenAll(rounds)[done], k).None?
    requires Heard(cfg, rounds, done, k, b)
    ensures Heard(cfg, rounds, done + 1, k, b)
  {
    hide Flatten, Says, Stamp;
    if rounds != [] {
      FlattenSplits(rounds);
    }
  }

  lemma ProcessingKeepsFounded(cfg: LRG, s: System)
    requires SystemOk(cfg, s) && s.done < |s.world.fsm.out|
    ensures var t := Step(cfg, s.gw, s.world.fsm.out[s.done]);
            !t.tick && t.current.Some? ==> Founded(cfg, s.world, s.done + 1, t.current.value)
  {
    hide Step, Inv, Sound, ToMatch, SlotOf, Id, RibOf, Heard, FlattenAll, RoundOk, WellFormed;
    var n := s.world.fsm.out[s.done];
    OutIsOwed(s.world);
    RoundsAreOk(s.world);
    SoundHasDestinations(cfg, s.gw.candidates);
    StepAndSlot(cfg, s.gw, n);
    var t := Step(cfg, s.gw, n);
    if !t.tick && t.current.Some? {
      var c := t.current.value;
      if Says(cfg, n, SlotOf(c)).Some? {
        var b := ShowFounds(cfg, s.world.log, s.world.rounds, s.done, n.update.route, SlotOf(c));
        SameIdSameSlot(c, n.update.route);
        assert FoundedAt(cfg, s.world, s.done + 1, c, b);
      } else {
        var b :| 0 <= b <= |s.world.log| && FoundedAt(cfg, s.world, s.done, c, b);
        HeardOneMore(cfg, s.world.rounds, s.done, SlotOf(c), b);
        assert FoundedAt(cfg, s.world, s.done + 1, c, b);
      }
    }
  }

  lemma InstallationFounds(cfg: LRG, w: World, done: nat, c: Route)
    requires Inv(w)
    ensures Founded(cfg, Changed(w, RouteUpdate(NewRoute, c)), done, c)
  {
    hide Inv, SlotOf, Id, Says, Stamp, Flatten, RoundOk, WellFormed, FlattenAll;
    RoundsAreOk(w);
    var u := RouteUpdate(NewRoute, c);
    var v := Changed(w, u);
    RibStep(v.log, |w.log|);
    assert v.log[..|w.log| + 1] == v.log;
    if w.rounds != [] {
      var r := w.rounds[|w.rounds| - 1];
      forall j | 0 <= j < |Flatten(r)| ensures Stamp(r, j) <= |v.log| {
        StampInLog(w.log, r, j);
      }
    }
    assert FoundedAt(cfg, v, done, c, |v.log|);
  }

  /* ---- The synchroniser only adds ---- */

  predicate Extends(r: Round, q: Round) {
    Flatten(r) <= Flatten(q) && forall j | 0 <= j < |Flatten(r)| :: Stamp(q, j) == Stamp(r, j)
  }

  predicate RoundsGrow(rs: seq<Round>, qs: seq<Round>) {
    || qs == rs
    || (|qs| == |rs| + 1 && qs[..|rs|] == rs)
    || (rs != [] && |qs| == |rs| && qs[..|rs| - 1] == rs[..|rs| - 1] && Extends(rs[|rs| - 1], qs[|rs| - 1]))
  }

  lemma SecondDumpExtends(log: Log, r: Round, d6: seq<Route>, t6: nat)
    requires RoundOk(log, r) && r.Scanned? && r.t6.None?
    ensures Extends(r, r.(t6 := Some(t6), d6 := d6))
  {
    hide Lists, RibOf;
    SecondDumpOwed(r, d6, t6);
  }

  lemma EndExtends(log: Log, r: Round)
    requires RoundOk(log, r) && r.Scanned? && r.t6.Some? && !r.ended
    ensures Extends(r, r.(ended := true))
  {
    EndOwed(log, r);
    hide Lists, RibOf;
  }

  lemma DeliveryExtends(r: Round, u: RouteUpdate)
    requires r.Scanned? && r.ended
    ensures Extends(r, r.(live := r.live + [u]))
  {
  }

  lemma NetlinkGrows(w: World, c: Calls)
    requires Sane(w) && PhaseFits(w)
    ensures RoundsGrow(w.rounds, Netlink(w, c).rounds)
  {
    hide Extends, RoundOk, WellFormed;
    if w.rounds != [] {
      var r := w.rounds[|w.rounds| - 1];
      assert r in w.rounds;
      if w.fsm.phase == Ipv4Routes && c.outcome.Dump? {
        SecondDumpExtends(w.log, r, c.outcome.routes, |w.log|);
      } else if w.fsm.phase == Ipv6Routes {
        EndExtends(w.log, r);
      }
    }
  }

  lemma InvIsSane(w: World)
    requires Inv(w)
    ensures Sane(w) && PhaseFits(w)
  {
    hide Sane, PhaseFits, StreamOk, OneWriter, FlattenAll;
  }

  lemma ReceivedGrows(w: World, c: Calls)
    requires Inv(w) && CanReceive(w.fsm)
    ensures RoundsGrow(w.rounds, Received(w, c).rounds)
  {
    hide Extends, Sane, PhaseFits, StreamOk, OneWriter, FlattenAll, Netlink, Receive, RoundsGrow;
    InvIsSane(w);
    NetlinkGrows(w, c);
    GrowsByNothing(w.rounds);
    if !Sentinels(w.fsm) && w.fsm.updates.LiveChan? && |w.rounds| > 0 && w.rounds[|w.rounds| - 1].Scanned? {
      LiveIsFollowing(w);
      EndedOfOver(w);
      GrowsByExtension(w.rounds, Wired(w.fsm).value.buf[0]);
    }
  }

  lemma LiveIsFollowing(w: World)
    requires Inv(w) && w.fsm.updates.LiveChan?
    ensures Following(w)
  {
    hide Sane, PhaseFits, StreamOk, FlattenAll;
  }

  lemma GrowsByNothing(rs: seq<Round>)
    ensures RoundsGrow(rs, rs)
  {
  }

  lemma GrowsByExtension(rs: seq<Round>, u: RouteUpdate)
    requires rs != [] && rs[|rs| - 1].Scanned? && rs[|rs| - 1].ended
    ensures RoundsGrow(rs, rs[|rs| - 1 := rs[|rs| - 1].(live := rs[|rs| - 1].live + [u])])
  {
    DeliveryExtends(rs[|rs| - 1], u);
  }

  lemma NextGrows(capacity: nat, w: World, l: Label)
    requires Inv(w) && Enabled(capacity, w, l)
    ensures RoundsGrow(w.rounds, Next(capacity, w, l).rounds)
  {
    hide Inv, RoundsGrow, Netlink, Received, CallsOk, Send, Close, FireTick, FirstSubscriber;
    GrowsByNothing(w.rounds);
    InvIsSane(w);
    match l
    case SocketHandsOver(c) =>
      ReadKeepsInv(w);
      ReadKeepsCalls(w, c);
      ReceivedGrows(Read(w), c);
    case HandsOver(i, c) =>
      SendKeepsInv(w, i);
      SendKeepsCalls(w, i, c);
      ReceivedGrows(w.(fsm := Send(w.fsm, i)), c);
    case Receives(c) => ReceivedGrows(w, c);
    case TickFires(c) => NetlinkGrows(w, c);
    case Subscribes(c) => NetlinkGrows(w, c);
    case _ =>
  }

  lemma TransitionAdds(f: Fsm, o: Outcome)
    ensures f.out <= Transition(f, o).0.out
  {
  }

  lemma ReceiveAdds(f: Fsm, o: Outcome)
    requires CanReceive(f)
    ensures f.out <= Receive(f, o).out
  {
    hide Transition;
    TransitionAdds(f.(updates := NoChan), o);
    if Wired(f).value.buf != [] {
      TransitionAdds(Rewire(f, Wired(f).value.(buf := Wired(f).value.buf[1..])).(updates := NoChan), o);
    }
  }

  lemma NetlinkAdds(w: World, c: Calls)
    ensures w.log <= Netlink(w, c).log
  {
  }

  // The history and the notifications only grow.
  lemma NextAdds(capacity: nat, w: World, l: Label)
    requires Enabled(capacity, w, l)
    ensures w.log <= Next(capacity, w, l).log && w.fsm.out <= Next(capacity, w, l).fsm.out
  {
    hide Netlink, CallsOk, Receive, Transition, Legal, RibOf;
    match l
    case SocketHandsOver(c) =>
      NetlinkAdds(Read(w), c);
      ReceiveAdds(Read(w).fsm, c.outcome);
    case HandsOver(i, c) =>
      NetlinkAdds(w.(fsm := Send(w.fsm, i)), c);
      ReceiveAdds(Send(w.fsm, i), c.outcome);
    case Receives(c) =>
      NetlinkAdds(w, c);
      ReceiveAdds(w.fsm, c.outcome);
    case TickFires(c) =>
      NetlinkAdds(w, c);
      TransitionAdds(w.fsm, c.outcome);
    case Subscribes(c) =>
      NetlinkAdds(w, c);
      TransitionAdds(w.fsm, c.outcome);
    case _ =>
  }

  lemma HeardGrows(cfg: LRG, rs: seq<Round>, qs: seq<Round>, done: nat, k: Slot, b: nat)
    requires RoundsGrow(rs, qs) && done <= |FlattenAll(rs)| && Heard(cfg, rs, done, k, b)
    ensures Heard(cfg, qs, done, k, b)
  {
    hide Flatten, Says, Stamp;
    if rs != [] {
      FlattenSplits(rs);
    }
  }

  lemma NextKeepsFounded(capacity: nat, cfg: LRG, w: World, l: Label, done: nat, c: Route)
    requires Inv(w) && Enabled(capacity, w, l) && done <= |w.fsm.out| && Founded(cfg, w, done, c)
    ensures Founded(cfg, Next(capacity, w, l), done, c)
  {
    hide Inv, Next, Enabled, Heard, RoundsGrow, RibOf, SlotOf, Id, FlattenAll;
    var b :| 0 <= b <= |w.log| && FoundedAt(cfg, w, done, c, b);
    var v := Next(capacity, w, l);
    NextGrows(capacity, w, l);
    NextAdds(capacity, w, l);
    OutIsOwed(w);
    HeardGrows(cfg, w.rounds, v.rounds, done, SlotOf(c), b);
    assert v.log[..b] == w.log[..b];
    assert FoundedAt(cfg, v, done, c, b);
  }

  lemma EchoIsClean(cfg: LRG, s: System)
    requires Healthy(cfg, s.gw) && CanTry(s) && cfg.to.table != 0
    ensures CleanLabel(Echo(s))
  {
    hide Sound;
  }

  lemma TurnKeepsOk(capacity: nat, cfg: LRG, s: System, t: Turn)
    requires cfg.to.table != 0
    requires SystemOk(cfg, s) && CanTurn(capacity, cfg, s, t)
    ensures SystemOk(cfg, AfterTurn(capacity, cfg, s, t))
  {
    hide Inv, Next, Enabled, Step, Sound, Founded, ToMatch, Run, CleanLabel, Legal, RibOf;
    var out := s.world.fsm.out;
    match t
    case Runs(l) => WorldTurnKeepsOk(capacity, cfg, s, l);
    case Processes =>
      ProcessingKeepsFounded(cfg, s);
      StepKeepsHealthy(cfg, s.gw, out[s.done]);
      assert out[..s.done + 1] == out[..s.done] + [out[s.done]];
      FollowOne(cfg, s.gw, out[..s.done], out[s.done]);
    case Accepted =>
      EchoIsClean(cfg, s);
      InstallationFounds(cfg, s.world, s.done, s.gw.current.value);
      InstallationIsChange(capacity, s);
      StepKeepsInv(capacity, s.world, Echo(s));
    case Refused =>
  }

  lemma InstallationIsChange(capacity: nat, s: System)
    requires CanTry(s) && Enabled(capacity, s.world, Echo(s))
    ensures var v := Next(capacity, s.world, Echo(s));
            v == Changed(s.world, RouteUpdate(NewRoute, s.gw.current.value)) && v.fsm == s.world.fsm
  {
  }

  lemma WorldTurnKeepsOk(capacity: nat, cfg: LRG, s: System, l: Label)
    requires SystemOk(cfg, s) && Enabled(capacity, s.world, l) && CleanLabel(l)
    ensures SystemOk(cfg, s.(world := Next(capacity, s.world, l)))
  {
    hide Inv, Next, Enabled, Sound, Founded, ToMatch, Run, CleanLabel;
    StepKeepsInv(capacity, s.world, l);
    NextAdds(capacity, s.world, l);
    assert Next(capacity, s.world, l).fsm.out[..s.done] == s.world.fsm.out[..s.done];
    if !s.gw.tick && s.gw.current.Some? {
      NextKeepsFounded(capacity, cfg, s.world, l, s.done, s.gw.current.value);
    }
  }

  lemma OriginIsOk(cfg: LRG)
    ensures SystemOk(cfg, ORIGIN)
  {
    StartIsWaiting();
    assert START.fsm.out[..0] == [];
  }

  // In every run of the whole system, a belief without a pending installation goes back to a moment
  // when the kernel held that route.
  lemma {:induction false} EverySystemIsOk(capacity: nat, cfg: LRG, ss: seq<System>, ts: seq<Turn>, i: nat)
    requires cfg.to.table != 0
    requires IsSystemRun(capacity, cfg, ss, ts) && i < |ss|
    ensures SystemOk(cfg, ss[i])
  {
    hide SystemOk, CanTurn, AfterTurn;
    if i == 0 {
      OriginIsOk(cfg);
    } else {
      EverySystemIsOk(capacity, cfg, ss, ts, i - 1);
      TurnKeepsOk(capacity, cfg, ss[i - 1], ts[i - 1]);
    }
  }

  /* ---- Whether the kernel still holds the copy ---- */

  predicate About(u: RouteUpdate, k: Slot) {
    !u.kind.OtherUpdate? && SlotOf(u.route) == k
  }

  predicate LastAbout(log: Log, p: nat, k: Slot) {
    p < |log| && About(log[p], k) && forall i | p < i < |log| :: !About(log[i], k)
  }

  // The last event about the slot was about a target, and it was either a show, which a later dump
  // repeats, or happened since the subscription, which delivers it.
  predicate Telling(cfg: LRG, log: Log, sub: nat, k: Slot) {
    exists p | 0 <= p < |log| :: LastAbout(log, p, k) && ToMatch(cfg.to, log[p].route) && (log[p].kind == NewRoute || p >= sub)
  }

  lemma {:induction false} QuietSince(log: Log, from: nat, k: Slot)
    requires from <= |log| && forall i | from <= i < |log| :: !About(log[i], k)
    ensures HeldAt(RibOf(log[..from]), k) == HeldAt(RibOf(log), k)
    ensures k in RibOf(log[..from]) <==> k in RibOf(log)
    ensures k in RibOf(log) ==> RibOf(log[..from])[k] == RibOf(log)[k]
    decreases |log|
  {
    hide SlotOf, Id;
    if from == |log| {
      assert log[..from] == log;
    } else {
      var front := log[..|log| - 1];
      assert front[..from] == log[..from];
      QuietSince(front, from, k);
      assert !About(log[|log| - 1], k);
    }
  }

  lemma LastAboutDecides(log: Log, p: nat, k: Slot)
    requires LastAbout(log, p, k)
    ensures if log[p].kind == NewRoute then k in RibOf(log) && RibOf(log)[k] == log[p].route else k !in RibOf(log)
  {
    hide SlotOf, Id;
    RibStep(log, p);
    QuietSince(log, p + 1, k);
  }

  lemma {:induction false} FindLastAbout(log: Log, k: Slot) returns (p: Option<nat>)
    ensures p.Some? ==> LastAbout(log, p.value, k)
    ensures p.None? ==> k !in RibOf(log)
  {
    hide SlotOf;
    if log == [] {
      p := None;
    } else if About(log[|log| - 1], k) {
      p := Some(|log| - 1);
    } else {
      p := FindLastAbout(log[..|log| - 1], k);
      assert p.Some? ==> About(log[p.value], k);
    }
  }

  // A copy in the kernel was put there by the last event about its slot.
  lemma CopyNeedsTelling(cfg: LRG, log: Log, sub: nat, k: Slot)
    requires CopyAt(cfg, RibOf(log), k).Some?
    ensures Telling(cfg, log, sub, k)
  {
    hide ToMatch, Id;
    var p := FindLastAbout(log, k);
    LastAboutDecides(log, p.value, k);
  }

  /* ---- What is still to be said ---- */

  lemma {:induction false} LastSaysConcat(cfg: LRG, a: seq<Notification>, b: seq<Notification>, k: Slot)
    ensures LastSays(cfg, a + b, k) == if LastSays(cfg, b, k).Some? then LastSays(cfg, b, k) else LastSays(cfg, a, k)
    decreases |a|
  {
    hide Says;
    if a == [] {
      assert a + b == b;
    } else {
      assert (a + b)[1..] == a[1..] + b;
      LastSaysConcat(cfg, a[1..], b, k);
    }
  }

  lemma {:induction false} SaysSomething(cfg: LRG, q: seq<Notification>, i: nat, k: Slot)
    requires i < |q| && Says(cfg, q[i], k).Some?
    ensures LastSays(cfg, q, k).Some?
  {
    hide Says;
    if i > 0 {
      SaysSomething(cfg, q[1..], i - 1, k);
    }
  }

  lemma {:induction false} SaysOneThing(cfg: LRG, q: seq<Notification>, k: Slot, v: Option<RouteId>)
    requires forall i | 0 <= i < |q| :: Says(cfg, q[i], k).Some? ==> Says(cfg, q[i], k) == Some(v)
    ensures LastSays(cfg, q, k).Some? ==> LastSays(cfg, q, k) == Some(v)
  {
    hide Says;
    if q != [] {
      SaysOneThing(cfg, q[1..], k, v);
    }
  }

  lemma {:induction false} SaysNothing(cfg: LRG, q: seq<Notification>, k: Slot)
    requires forall i | 0 <= i < |q| :: Says(cfg, q[i], k).None?
    ensures LastSays(cfg, q, k).None?
  {
    hide Says;
    if q != [] {
      SaysNothing(cfg, q[1..], k);
    }
  }

  // What a target's event says about its slot, and makes of it.
  function ToldBy(u: RouteUpdate): Option<RouteId> {
    if u.kind == NewRoute then Some(Id(u.route)) else None
  }

  // Of the replay, the last event about the slot is what counts.
  lemma ReplaySays(cfg: LRG, log: Log, sub: nat, p: nat, k: Slot)
    requires sub <= |log| && LastAbout(log, p, k) && ToMatch(cfg.to, log[p].route)
    ensures LastSays(cfg, Updates(log[sub..]), k) == if p >= sub then Some(ToldBy(log[p])) else None
  {
    hide ToMatch, SlotOf, Id, LastSays;
    if p >= sub {
      var early, late := Updates(log[sub..p + 1]), Updates(log[p + 1..]);
      assert Updates(log[sub..]) == early + late;
      LastSaysConcat(cfg, early, late, k);
      SilentReplay(cfg, log, p + 1, k);
      assert early == Updates(log[sub..p]) + [Update(log[p])];
      LastSaysAppend(cfg, Updates(log[sub..p]), Update(log[p]), k);
    } else {
      SilentReplay(cfg, log, sub, k);
    }
  }

  lemma SilentReplay(cfg: LRG, log: Log, from: nat, k: Slot)
    requires from <= |log| && forall i | from <= i < |log| :: !About(log[i], k)
    ensures LastSays(cfg, Updates(log[from..]), k).None?
  {
    hide ToMatch, SlotOf, Id, LastSays;
    var q := Updates(log[from..]);
    forall i | 0 <= i < |q| ensures Says(cfg, q[i], k).None? {
      assert q[i] == Update(log[from + i]);
    }
    SaysNothing(cfg, q, k);
  }

  // A dump says of a target what the kernel held.
  lemma DumpSays(cfg: LRG, d: seq<Route>, rib: Rib, f: Family, x: Route) returns (m: nat)
    requires Lists(d, rib, f) && ToMatch(cfg.to, x) && SlotOf(x) in rib && rib[SlotOf(x)] == x
    ensures LastSays(cfg, News(d), SlotOf(x)).Some? ==> LastSays(cfg, News(d), SlotOf(x)) == Some(Some(Id(x)))
    ensures InFamily(f, x) ==> m < |d| && d[m] == x && LastSays(cfg, News(d), SlotOf(x)).Some?
  {
    hide LastSays, SlotOf, Id, IPNetEqual;
    var q := News(d);
    forall i | 0 <= i < |q| ensures Says(cfg, q[i], SlotOf(x)).Some? ==> Says(cfg, q[i], SlotOf(x)) == Some(Some(Id(x))) {
      assert q[i] == NewNote(d[i]) && d[i] in d;
    }
    SaysOneThing(cfg, q, SlotOf(x), Some(Id(x)));
    m := 0;
    if InFamily(f, x) {
      m :| 0 <= m < |d| && d[m] == x;
      SaysSomething(cfg, q, m, SlotOf(x));
    }
  }

  lemma AnyFamily(r: Route)
    requires r.dst.Some?
    ensures InFamily(V4, r) || InFamily(V6, r)
  {
  }

  // A target the kernel held when both dumps were made is shown by one of them, and contradicted
  // by none.
  lemma DumpsSay(cfg: LRG, d4: seq<Route>, d6: seq<Route>, rib4: Rib, rib6: Rib, x: Route) returns (j: nat)
    requires Lists(d4, rib4, V4) && Lists(d6, rib6, V6) && ToMatch(cfg.to, x)
    requires SlotOf(x) in rib4 && rib4[SlotOf(x)] == x && SlotOf(x) in rib6 && rib6[SlotOf(x)] == x
    ensures LastSays(cfg, Scan(d4, d6), SlotOf(x)) == Some(Some(Id(x)))
    ensures j < 1 + |d4| + |d6| && Says(cfg, Scan(d4, d6)[j], SlotOf(x)).Some?
  {
    hide SlotOf, Id, Lists, InFamily, IPNetEqual;
    var k := SlotOf(x);
    AnyFamily(x);
    var m4 := DumpSays(cfg, d4, rib4, V4, x);
    var m6 := DumpSays(cfg, d6, rib6, V6, x);
    LastSaysConcat(cfg, [StartOfRIB], News(d4), k);
    LastSaysConcat(cfg, [StartOfRIB] + News(d4), News(d6), k);
    LastSaysAppend(cfg, [StartOfRIB] + News(d4) + News(d6), EndOfRIB, k);
    j := if InFamily(V4, x) then 1 + m4 else 1 + |d4| + m6;
    assert Scan(d4, d6)[j] == NewNote(x);
  }

  // While the subscription lives, everything since it was made is delivered or on its way.
  predicate Live(w: World) {
    Following(w) && w.socket.Some? && w.fsm.live.Some?
  }

  function Coming(w: World): seq<RouteUpdate>
    requires Live(w)
  {
    w.fsm.live.value.buf + w.socket.value
  }

  function LastRound(w: World): Round
    requires w.rounds != []
  {
    w.rounds[|w.rounds| - 1]
  }

  // What the last round will have said once everything so far is delivered.
  function RoundSays(w: World): seq<Notification>
    requires w.rounds != [] && LastRound(w).Scanned? && LastRound(w).sub <= |w.log|
  {
    Scan(LastRound(w).d4, LastRound(w).d6) + Updates(w.log[LastRound(w).sub..])
  }

  lemma StreamIsWhole(w: World)
    requires Inv(w) && Live(w)
    ensures w.rounds != []
    ensures var r := LastRound(w);
            && r.Scanned? && r.ended && r.t6.Some? && RoundOk(w.log, r) && WellFormed(w.log)
            && r.sub <= Seen(r) <= |w.log| && Coming(w) == w.log[Seen(r)..]
            && Base(w.rounds) <= |w.fsm.out|
            && w.fsm.out + Updates(Coming(w)) == FlattenAll(w.rounds[..|w.rounds| - 1]) + RoundSays(w)
            && Flatten(r) <= RoundSays(w) && |w.fsm.out| == Base(w.rounds) + |Flatten(r)|
            && w.fsm.out == FlattenAll(w.rounds)
  {
    hide Lists, RibOf, WellFormed, FlattenAll;
    LastScanIsDelivered(w);
    var r := LastRound(w);
    var front := FlattenAll(w.rounds[..|w.rounds| - 1]);
    var seen, all := w.log[r.sub..Seen(r)], w.log[r.sub..];
    assert all == seen + w.log[Seen(r)..];
    assert Updates(all) == Updates(seen) + Updates(Coming(w));
    Regroup(front, Scan(r.d4, r.d6) + Updates(seen), Updates(Coming(w)));
    Regroup(Scan(r.d4, r.d6), Updates(seen), Updates(Coming(w)));
    FlattenSplits(w.rounds);
    assert Flatten(r) == Scan(r.d4, r.d6) + Updates(r.live);
  }

  // A round that tells says so in the end, and the notification that does is not older than the
  // event it tells of.
  lemma RoundTells(cfg: LRG, w: World, p: nat, k: Slot) returns (j: nat)
    requires Inv(w) && Live(w) && w.rounds != [] && LastRound(w).Scanned? && LastRound(w).sub <= |w.log|
    requires LastAbout(w.log, p, k) && ToMatch(cfg.to, w.log[p].route) && (w.log[p].kind == NewRoute || p >= LastRound(w).sub)
    ensures LastSays(cfg, RoundSays(w), k) == Some(ToldBy(w.log[p]))
    ensures j < |RoundSays(w)| && Says(cfg, RoundSays(w)[j], k).Some? && Stamp(LastRound(w), j) > p
  {
    hide LastSays, Says, SlotOf, Id, ToMatch, Inv, Live, FlattenAll, Flatten, Coming, RoundOk, WellFormed, RibOf, Lists;
    StreamIsWhole(w);
    var r := LastRound(w);
    var scan := Scan(r.d4, r.d6);
    ReplaySays(cfg, w.log, r.sub, p, k);
    LastSaysConcat(cfg, scan, Updates(w.log[r.sub..]), k);
    if p >= r.sub {
      j := |scan| + p - r.sub;
      assert RoundSays(w)[j] == Update(w.log[p]);
      EventSays(cfg, w.log[p], k);
    } else {
      j := DumpTells(cfg, w.log, r, p, k);
      assert RoundSays(w)[j] == scan[j];
    }
  }

  lemma EventSays(cfg: LRG, u: RouteUpdate, k: Slot)
    requires About(u, k) && ToMatch(cfg.to, u.route)
    ensures Says(cfg, Update(u), k).Some?
  {
    hide SlotOf, Id, ToMatch;
  }

  lemma DumpTells(cfg: LRG, log: Log, r: Round, p: nat, k: Slot) returns (j: nat)
    requires RoundOk(log, r) && r.Scanned? && r.t6.Some? && p < r.sub
    requires LastAbout(log, p, k) && ToMatch(cfg.to, log[p].route) && log[p].kind == NewRoute
    ensures LastSays(cfg, Scan(r.d4, r.d6), k) == Some(ToldBy(log[p]))
    ensures j < |Scan(r.d4, r.d6)| && Says(cfg, Scan(r.d4, r.d6)[j], k).Some? && Stamp(r, j) > p
  {
    hide LastSays, Says, SlotOf, Id, ToMatch, RibOf, Lists;
    HeldAtDump(log, p, k, r.t4);
    HeldAtDump(log, p, k, r.t6.value);
    j := DumpsSay(cfg, r.d4, r.d6, RibOf(log[..r.t4]), RibOf(log[..r.t6.value]), log[p].route);
  }

  lemma HeldAtDump(log: Log, p: nat, k: Slot, t: nat)
    requires LastAbout(log, p, k) && log[p].kind == NewRoute && p < t <= |log|
    ensures k in RibOf(log[..t]) && RibOf(log[..t])[k] == log[p].route
  {
    hide SlotOf, RibOf;
    assert LastAbout(log[..t], p, k);
    LastAboutDecides(log[..t], p, k);
  }

  /* ---- While the subscription lives, the system is the loop ---- */

  function LoopOf(s: System): Loop
    requires Live(s.world) && s.done <= |s.world.fsm.out|
  {
    Loop(s.gw, s.world.fsm.out[s.done..] + Updates(Coming(s.world)), RibOf(s.world.log))
  }

  // The copy a gateway reckons with at a slot, by what is on its way or by what it believes.
  function Expected(cfg: LRG, l: Loop, k: Slot): Option<RouteId> {
    var said := LastSays(cfg, l.queue, k);
    if said.Some? then said.value else if Believes(l.gw, k) then Some(Id(l.gw.current.value)) else None
  }

  function SubscribedAt(w: World): nat {
    if w.rounds != [] && LastRound(w).Scanned? then LastRound(w).sub else 0
  }

  lemma QueueSays(cfg: LRG, s: System, k: Slot)
    requires Inv(s.world) && Live(s.world) && s.done <= |s.world.fsm.out|
    requires s.world.rounds != [] && LastRound(s.world).Scanned? && LastRound(s.world).sub <= |s.world.log|
    requires LastSays(cfg, RoundSays(s.world), k).Some?
    ensures var said := LastSays(cfg, LoopOf(s).queue, k); said.Some? ==> said == LastSays(cfg, RoundSays(s.world), k)
    ensures forall j | 0 <= j < |RoundSays(s.world)| && Base(s.world.rounds) + j >= s.done ::
              Says(cfg, RoundSays(s.world)[j], k).Some? ==> LastSays(cfg, LoopOf(s).queue, k).Some?
  {
    hide LastSays, Says, Inv, Live, FlattenAll, Flatten, RoundSays, RibOf, Coming;
    var w, q := s.world, LoopOf(s).queue;
    StreamIsWhole(w);
    var front := FlattenAll(w.rounds[..|w.rounds| - 1]);
    LastSaysConcat(cfg, front, RoundSays(w), k);
    LastSaysConcat(cfg, w.fsm.out[..s.done], q, k);
    assert w.fsm.out[..s.done] + q == front + RoundSays(w);
    forall j | 0 <= j < |RoundSays(w)| && |front| + j >= s.done && Says(cfg, RoundSays(w)[j], k).Some?
      ensures LastSays(cfg, q, k).Some?
    {
      assert q[|front| + j - s.done] == (front + RoundSays(w))[|front| + j];
      SaysSomething(cfg, q, |front| + j - s.done, k);
    }
  }

  // A gateway that is told the last word about its slot, and has nothing about it queued, believes
  // what the kernel holds.
  lemma BeliefIsRecent(cfg: LRG, s: System, p: nat, k: Slot)
    requires SystemOk(cfg, s) && Live(s.world) && Believes(s.gw, k)
    requires LastAbout(s.world.log, p, k) && ToMatch(cfg.to, s.world.log[p].route)
    requires s.world.log[p].kind == NewRoute || p >= SubscribedAt(s.world)
    requires LastSays(cfg, LoopOf(s).queue, k).None?
    ensures CopyAt(cfg, RibOf(s.world.log), k) == Some(Id(s.gw.current.value))
  {
    hide LastSays, Says, Inv, Live, FlattenAll, Flatten, RoundSays, RibOf, Coming, ToMatch, SlotOf, Id, Stamp, RoundOk, WellFormed, Sound, SameDecisions;
    var w := s.world;
    StreamIsWhole(w);
    var j := RoundTells(cfg, w, p, k);
    QueueSays(cfg, s, k);
    var b :| 0 <= b <= |w.log| && FoundedAt(cfg, w, s.done, s.gw.current.value, b);
    assert Flatten(LastRound(w))[j] == RoundSays(w)[j];
    assert b > p;
    QuietSince(w.log, b, k);
    HoldsATarget(cfg, RibOf(w.log), s.gw.current.value);
  }

  lemma TellingInforms(cfg: LRG, s: System, k: Slot)
    requires SystemOk(cfg, s) && Live(s.world)
    requires Telling(cfg, s.world.log, SubscribedAt(s.world), k)
    ensures Informed(cfg, LoopOf(s), k)
  {
    hide LastSays, Says, Inv, Live, FlattenAll, Flatten, RoundSays, RibOf, Coming, ToMatch, SlotOf, Id, Stamp, RoundOk, WellFormed, Sound, SameDecisions, Believes;
    var w := s.world;
    StreamIsWhole(w);
    var p :| 0 <= p < |w.log| && LastAbout(w.log, p, k) && ToMatch(cfg.to, w.log[p].route) && (w.log[p].kind == NewRoute || p >= SubscribedAt(w));
    var j := RoundTells(cfg, w, p, k);
    QueueSays(cfg, s, k);
    LastAboutDecides(w.log, p, k);
    if LastSays(cfg, LoopOf(s).queue, k).None? && Believes(s.gw, k) {
      BeliefIsRecent(cfg, s, p, k);
    }
  }

  // At any moment of any run at which the component follows a live subscription, the gateway is
  // right about a copy it reckons with if and only if the last event about its slot was about a
  // target and was not a deletion from before the subscription.
  lemma GatewaysAreInformedExactly(cfg: LRG, s: System, k: Slot)
    requires SystemOk(cfg, s) && Live(s.world)
    ensures Informed(cfg, LoopOf(s), k) <==>
            Expected(cfg, LoopOf(s), k).None? || Telling(cfg, s.world.log, SubscribedAt(s.world), k)
  {
    hide LastSays, Inv, Live, LoopOf, ToMatch, SlotOf, Id, Sound, SameDecisions, Believes, Telling, CopyAt, Founded, Run;
    if Telling(cfg, s.world.log, SubscribedAt(s.world), k) {
      TellingInforms(cfg, s, k);
    } else if CopyAt(cfg, RibOf(s.world.log), k).Some? {
      CopyNeedsTelling(cfg, s.world.log, SubscribedAt(s.world), k);
    }
    LoopHasKernel(s);
  }

  lemma LoopHasKernel(s: System)
    requires Live(s.world) && s.done <= |s.world.fsm.out|
    ensures LoopOf(s).kernel == RibOf(s.world.log) && LoopOf(s).gw == s.gw
  {
  }

  predicate AtRest(s: System) {
    Live(s.world) && s.done == |s.world.fsm.out| && Coming(s.world) == [] && !s.gw.tick
  }

  // So at rest the kernel holds the route the gateway believes installed, unless the slot was last
  // taken, or cleared, of a route that is no target, or cleared while nobody listened.
  lemma RestingCopyIsThereExactly(capacity: nat, cfg: LRG, ss: seq<System>, ts: seq<Turn>, i: nat)
    requires cfg.to.table != 0
    requires IsSystemRun(capacity, cfg, ss, ts) && i < |ss| && AtRest(ss[i]) && ss[i].gw.current.Some?
    ensures var w, c := ss[i].world, ss[i].gw.current.value;
            HeldAt(RibOf(w.log), SlotOf(c)) == Some(Id(c)) <==> Telling(cfg, w.log, SubscribedAt(w), SlotOf(c))
  {
    hide IsSystemRun, Inv, Live, ToMatch, SlotOf, Id, Sound, SameDecisions, Telling, CopyAt, HeldAt, Founded, Coming, Run, RibOf;
    var s, c := ss[i], ss[i].gw.current.value;
    EverySystemIsOk(capacity, cfg, ss, ts, i);
    GatewaysAreInformedExactly(cfg, s, SlotOf(c));
    LoopHasKernel(s);
    assert LoopOf(s).queue == [];
    HoldsATarget(cfg, RibOf(s.world.log), c);
  }

  // What is on its way, in steps of the subscription and of the component.
  function Backlog(w: World): nat
    requires Live(w)
  {
    2 * |w.socket.value| + |w.fsm.live.value.buf|
  }

  predicate Buffers(w: World, v: World) {
    && Live(w) && Live(v) && v.fsm.out == w.fsm.out && v.log == w.log
    && Coming(v) == Coming(w) && Backlog(v) < Backlog(w)
  }

  predicate DeliversOne(w: World, v: World) {
    && Live(w) && Live(v) && Coming(w) != []
    && v.fsm.out == w.fsm.out + [Update(Coming(w)[0])] && v.log == w.log
    && Coming(v) == Coming(w)[1..] && Backlog(v) < Backlog(w)
  }

  predicate Announces(w: World, v: World, u: RouteUpdate) {
    Live(w) && Live(v) && v.fsm == w.fsm && v.log == w.log + [u] && Coming(v) == Coming(w) + [u]
  }

  // What can happen to a live world, short of the death of its subscription.
  lemma NextFromLive(capacity: nat, w: World, l: Label)
    requires Inv(w) && Live(w) && Enabled(capacity, w, l) && CleanLabel(l) && !l.SocketDies?
    ensures match l
            case KernelChanges(u) => Announces(w, Next(capacity, w, l), u)
            case SocketRead => Buffers(w, Next(capacity, w, l))
            case _ => (l.Receives? || l.SocketHandsOver?) && DeliversOne(w, Next(capacity, w, l))
  {
    hide Sane, StreamOk, FlattenAll, PhaseFits, InFlight, CallsOk, Netlink, Legal, RibOf, CleanUpdates, CleanDump;
    StepKeepsInv(capacity, w, l);
    LiveIsOpen(w);
    match l
    case SocketHandsOver(c) =>
      ReadKeepsInv(w);
      LiveHead(Read(w));
    case Receives(c) => LiveHead(w);
    case _ =>
  }

  lemma LiveIsOpen(w: World)
    requires Inv(w) && Live(w)
    ensures !w.fsm.live.value.closed && w.fsm.producers == [] && !w.fsm.tick && !w.fsm.subscribed
    ensures w.rounds != [] && LastRound(w).Scanned?
  {
    EndedOfOver(w);
  }

  lemma LiveHead(w: World)
    requires Inv(w) && Live(w)
    ensures w.fsm.live.value.buf != [] ==> w.fsm.live.value.buf[0].route.table != 0
  {
    if w.fsm.live.value.buf != [] {
      LiveHeadIsClean(w);
    }
  }

  // Every turn of a live system that keeps the subscription alive is a move of the loop, or moves
  // an update on towards the gateway, which the loop does not see.
  lemma LiveSystemIsLoop(capacity: nat, cfg: LRG, s: System, t: Turn)
    requires cfg.to.table != 0
    requires SystemOk(cfg, s) && Live(s.world) && CanTurn(capacity, cfg, s, t) && t != Runs(SocketDies)
    ensures var s' := AfterTurn(capacity, cfg, s, t);
            SystemOk(cfg, s') && Live(s'.world) &&
            match t
            case Processes => LoopOf(s).queue != [] && LoopOf(s') == Deliver(cfg, LoopOf(s))
            case Accepted => LoopOf(s') == Installs(LoopOf(s))
            case Refused => LoopOf(s') == Fails(LoopOf(s))
            case Runs(l) =>
              if l.KernelChanges? then LoopOf(s') == Outside(LoopOf(s), Update(l.u))
              else LoopOf(s') == LoopOf(s) && Backlog(s'.world) < Backlog(s.world)
  {
    hide Inv, Live, Step, Sound, ToMatch, Founded, SameDecisions, Run, Legal, RibOf, Enabled, Next, CleanLabel, Apply;
    TurnKeepsOk(capacity, cfg, s, t);
    var s' := AfterTurn(capacity, cfg, s, t);
    var out, rest := s.world.fsm.out, Coming(s.world);
    match t
    case Processes => assert out[s.done..] == [out[s.done]] + out[s.done + 1..];
    case Refused =>
    case Accepted =>
      EchoIsClean(cfg, s);
      NextFromLive(capacity, s.world, Echo(s));
      QueueOneMore(s, Echo(s).u, s'.world);
    case Runs(l) =>
      NextFromLive(capacity, s.world, l);
      if l.KernelChanges? {
        QueueOneMore(s, l.u, s'.world);
      } else if !l.SocketRead? {
        QueueMovesOn(out, s.done, rest);
      }
  }

  lemma QueueOneMore(s: System, u: RouteUpdate, v: World)
    requires Announces(s.world, v, u) && s.done <= |s.world.fsm.out|
    ensures LoopOf(s.(world := v)) == Outside(LoopOf(s), Update(u))
  {
    hide Live, Coming, Apply;
    assert Updates(Coming(v)) == Updates(Coming(s.world)) + [Update(u)];
    Regroup(s.world.fsm.out[s.done..], Updates(Coming(s.world)), [Update(u)]);
    RibStep(v.log, |s.world.log|);
    assert v.log[..|s.world.log|] == s.world.log && v.log[..|s.world.log| + 1] == v.log;
  }

  lemma DropAppended<T>(a: seq<T>, n: nat, x: T)
    requires n <= |a|
    ensures (a + [x])[n..] == a[n..] + [x]
  {
  }

  lemma QueueMovesOn(out: seq<Notification>, done: nat, rest: seq<RouteUpdate>)
    requires done <= |out| && rest != []
    ensures (out + [Update(rest[0])])[done..] + Updates(rest[1..]) == out[done..] + Updates(rest)
  {
    var u, later := Update(rest[0]), Updates(rest[1..]);
    assert Updates(rest) == [u] + later;
    DropAppended(out, done, u);
    Regroup(out[done..], [u], later);
  }

  /* ---- Convergence of the whole system ---- */

  // What goes on when nothing changes the kernel but the gateway, and the subscription lives.
  predicate Quiet(t: Turn) {
    match t
    case Processes => true
    case Accepted => true
    case Refused => false
    case Runs(l) => l.SocketRead? || l.SocketHandsOver? || l.Receives?
  }

  function Persisting(s: System, times: nat): System {
    s.(gw := AfterRefusals(s.gw, times))
  }

  predicate Calm(s: System, goal: Option<Route>) {
    Live(s.world) && s.done <= |s.world.fsm.out| && Settled(LoopOf(s), goal)
  }

  // However often AddRoute refuses, something else can happen too, and whatever does, the system
  // comes to rest after finitely many turns, no tick ever finding the gateway without a route.
  least predicate Calms(capacity: nat, cfg: LRG, s: System, goal: Option<Route>) {
    || Calm(s, goal)
    || (&& (s.gw.tick ==> s.gw.current.Some?)
        && (exists t :: Quiet(t) && CanTurn(capacity, cfg, s, t))
        && (forall times: nat, t :: Quiet(t) && CanTurn(capacity, cfg, Persisting(s, times), t) ==>
              Calms(capacity, cfg, AfterTurn(capacity, cfg, Persisting(s, times), t), goal)))
  }

  lemma PersistingIsOk(cfg: LRG, s: System, times: nat)
    requires SystemOk(cfg, s)
    ensures SystemOk(cfg, Persisting(s, times))
    ensures Live(s.world) ==> LoopOf(Persisting(s, times)) == Retried(LoopOf(s), times)
  {
    hide Inv, Sound, ToMatch, Founded, Run, AfterRefusals;
    RefusalsOnlyTry(s.gw, times);
  }

  // With something queued there is a turn that delivers it or moves it on.
  lemma QueuedMovesOn(capacity: nat, cfg: LRG, s: System) returns (t: Turn)
    requires SystemOk(cfg, s) && Live(s.world) && LoopOf(s).queue != []
    ensures CanTurn(capacity, cfg, s, t) && (t == Processes || (t.Runs? && Quiet(t)))
  {
    hide Inv, Live, Sound, ToMatch, Founded, Run, SameDecisions, CanTurn;
    if s.done < |s.world.fsm.out| {
      t := Processes;
      ProcessingIsPossible(capacity, cfg, s);
    } else {
      t := ComingMovesOn(capacity, cfg, s);
    }
  }

  lemma ProcessingIsPossible(capacity: nat, cfg: LRG, s: System)
    requires SystemOk(cfg, s) && s.done < |s.world.fsm.out|
    ensures CanTurn(capacity, cfg, s, Processes)
  {
    hide Inv, Sound, ToMatch, Founded, Run, SameDecisions;
  }

  lemma ComingMovesOn(capacity: nat, cfg: LRG, s: System) returns (t: Turn)
    requires SystemOk(cfg, s) && Live(s.world) && s.done == |s.world.fsm.out| && LoopOf(s).queue != []
    ensures CanTurn(capacity, cfg, s, t) && t.Runs? && Quiet(t)
  {
    hide Sane, StreamOk, PhaseFits, FlattenAll, Sound, ToMatch, Founded, Run, SameDecisions, CallsOk, CleanUpdates, CleanDump, RoundOk, Healthy;
    var w := s.world;
    LiveIsOpen(w);
    InvIsWellFormed(w);
    var c := SuccessfulCallsExist(w);
    t := if w.fsm.live.value.buf != [] then Runs(Receives(c)) else Runs(SocketHandsOver(c));
  }

  lemma PendingCanTry(capacity: nat, cfg: LRG, s: System)
    requires SystemOk(cfg, s) && CanTry(s)
    ensures CanTurn(capacity, cfg, s, Accepted)
  {
    hide Sound, ToMatch, Founded, Run, StreamOk, FlattenAll;
  }

  lemma {:induction false} CarefulSystemsCalm(capacity: nat, cfg: LRG, s: System, goal: Option<Route>)
    requires cfg.to.table != 0
    requires SystemOk(cfg, s) && Live(s.world)
    requires Converging(cfg, LoopOf(s), goal) && Careful(cfg, LoopOf(s))
    ensures Calms(capacity, cfg, s, goal)
    decreases Others(cfg, LoopOf(s).queue), Second(cfg, LoopOf(s), goal), Pending(LoopOf(s)), |LoopOf(s).queue|, Backlog(s.world)
  {
    hide SystemOk, Live, Sound, Safe, Aware, Heads, Deliver, Installs, Others, Second, Settled, ToMatch, AfterRefusals, CanTurn, AfterTurn, Backlog, Converging, Careful;
    SystemOkCounts(cfg, s);
    var l := LoopOf(s);
    if l.queue == [] && !s.gw.tick {
      RestIsSettled(cfg, l, goal);
    } else {
      CarefulIsArmed(cfg, l);
      SomethingCanHappen(capacity, cfg, s);
      forall times: nat, t | Quiet(t) && CanTurn(capacity, cfg, Persisting(s, times), t)
        ensures Calms(capacity, cfg, AfterTurn(capacity, cfg, Persisting(s, times), t), goal)
      {
        PersistingIsOk(cfg, s, times);
        RefusalsKeepConverging(cfg, l, goal, times);
        QuietTurnProgresses(capacity, cfg, Persisting(s, times), t, goal);
        CarefulSystemsCalm(capacity, cfg, AfterTurn(capacity, cfg, Persisting(s, times), t), goal);
      }
    }
  }

  lemma CarefulIsArmed(cfg: LRG, l: Loop)
    requires Sound(cfg, l.gw.candidates) && Careful(cfg, l)
    ensures Armed(l.gw)
  {
  }

  lemma SystemOkCounts(cfg: LRG, s: System)
    requires SystemOk(cfg, s)
    ensures s.done <= |s.world.fsm.out| && Inv(s.world) && Healthy(cfg, s.gw)
  {
  }

  lemma SomethingCanHappen(capacity: nat, cfg: LRG, s: System)
    requires SystemOk(cfg, s) && Live(s.world) && Armed(s.gw)
    requires s.done <= |s.world.fsm.out| && (LoopOf(s).queue != [] || s.gw.tick)
    ensures exists t :: Quiet(t) && CanTurn(capacity, cfg, s, t)
  {
    hide SystemOk, Live, CanTurn;
    if LoopOf(s).queue != [] {
      var t := QueuedMovesOn(capacity, cfg, s);
    } else {
      PendingCanTry(capacity, cfg, s);
      assert Quiet(Accepted);
    }
  }

  lemma QuietTurnProgresses(capacity: nat, cfg: LRG, s: System, t: Turn, goal: Option<Route>)
    requires cfg.to.table != 0
    requires SystemOk(cfg, s) && Live(s.world) && Quiet(t) && CanTurn(capacity, cfg, s, t)
    requires Converging(cfg, LoopOf(s), goal) && Careful(cfg, LoopOf(s))
    ensures var s' := AfterTurn(capacity, cfg, s, t);
            && SystemOk(cfg, s') && Live(s'.world)
            && Converging(cfg, LoopOf(s'), goal) && Careful(cfg, LoopOf(s'))
            && (|| Smaller(cfg, LoopOf(s'), LoopOf(s), goal)
                || (LoopOf(s') == LoopOf(s) && Backlog(s'.world) < Backlog(s.world)))
  {
    hide SystemOk, Live, Sound, Safe, Aware, Heads, Deliver, Installs, Others, Second, ToMatch, AfterTurn, Backlog, Smaller, Enabled, CleanLabel;
    LiveSystemIsLoop(capacity, cfg, s, t);
    SystemOkCounts(cfg, s);
    var l := LoopOf(s);
    match t
    case Processes =>
      DeliverKeepsConverging(cfg, l, goal);
      DeliverKeepsCareful(cfg, l);
      DeliverIsSmaller(cfg, l, goal);
    case Accepted =>
      InstallsKeepsConverging(cfg, l, goal);
      InstallsKeepsCareful(cfg, l);
      InstallsIsSmaller(cfg, l, goal);
    case _ =>
  }

  lemma {:induction false} CalmingSystemsAreCareful(capacity: nat, cfg: LRG, s: System, goal: Option<Route>)
    requires cfg.to.table != 0
    requires SystemOk(cfg, s) && Live(s.world) && Calms(capacity, cfg, s, goal)
    ensures Careful(cfg, LoopOf(s))
    decreases |LoopOf(s).queue|, Backlog(s.world)
  {
    hide SystemOk, Live, Sound, CanTurn, AfterTurn, Backlog, Deliver, Step, Disarms, Calms, Safe, LoopOf;
    SystemOkCounts(cfg, s);
    CalmsIsArmed(capacity, cfg, s, goal);
    var l := LoopOf(s);
    if l.queue == [] {
      NothingDisarms(cfg, l);
    } else {
      var t := QueuedMovesOn(capacity, cfg, s);
      CalmsAfterTurn(capacity, cfg, s, t, goal);
      LiveSystemIsLoop(capacity, cfg, s, t);
      SystemOkCounts(cfg, AfterTurn(capacity, cfg, s, t));
      LoopHasKernel(AfterTurn(capacity, cfg, s, t));
      DeliveryShortens(cfg, l);
      CalmingSystemsAreCareful(capacity, cfg, AfterTurn(capacity, cfg, s, t), goal);
      if t == Processes {
        CarefulBeforeDelivery(cfg, l);
      }
    }
  }

  lemma NothingDisarms(cfg: LRG, l: Loop)
    requires Sound(cfg, l.gw.candidates) && l.queue == [] && Armed(l.gw)
    ensures Careful(cfg, l)
  {
  }

  lemma CalmsIsArmed(capacity: nat, cfg: LRG, s: System, goal: Option<Route>)
    requires Live(s.world) && s.done <= |s.world.fsm.out| && Calms(capacity, cfg, s, goal)
    ensures Armed(s.gw) && LoopOf(s).gw == s.gw
  {
    hide CanTurn, AfterTurn, Live, Quiet;
  }

  lemma CalmsAfterTurn(capacity: nat, cfg: LRG, s: System, t: Turn, goal: Option<Route>)
    requires Live(s.world) && s.done <= |s.world.fsm.out| && LoopOf(s).queue != []
    requires Calms(capacity, cfg, s, goal) && Quiet(t) && CanTurn(capacity, cfg, s, t)
    ensures Calms(capacity, cfg, AfterTurn(capacity, cfg, s, t), goal)
  {
    hide CanTurn, AfterTurn, Live, Quiet, LoopOf;
    assert !Calm(s, goal);
    assert Persisting(s, 0) == s;
    assert CanTurn(capacity, cfg, Persisting(s, 0), t);
  }

  lemma DeliveryShortens(cfg: LRG, l: Loop)
    requires Sound(cfg, l.gw.candidates) && l.queue != []
    ensures |Deliver(cfg, l).queue| < |l.queue|
  {
  }

  // A gateway that has everything of the last round before it will believe in its target.
  lemma LiveSystemsTrack(cfg: LRG, s: System)
    requires SystemOk(cfg, s) && Live(s.world)
    ensures Tracks(cfg, Run(cfg, s.gw, LoopOf(s).queue))
  {
    hide Inv, Live, FlattenAll, Flatten, ToMatch, Founded, Run, Tracks, RibOf, RoundOk, WellFormed, RoundSays, SameDecisions, Coming;
    var w := s.world;
    StreamIsWhole(w);
    StartIsSound(cfg);
    var done, before := w.fsm.out[..s.done], FlattenAll(w.rounds[..|w.rounds| - 1]);
    assert done + LoopOf(s).queue == before + RoundSays(w);
    RoundTracks(cfg, w, before);
    DecisionsTrack(cfg, s.gw, done, LoopOf(s).queue);
  }

  lemma RoundTracks(cfg: LRG, w: World, before: seq<Notification>)
    requires w.rounds != [] && LastRound(w).Scanned? && LastRound(w).sub <= |w.log|
    requires Sound(cfg, GatewaySpec.INITIAL.candidates)
    ensures Tracks(cfg, Run(cfg, GatewaySpec.INITIAL, before + RoundSays(w)))
  {
    hide Run, Tracks, Sound;
    var r, origin := LastRound(w), GatewaySpec.INITIAL;
    RunConcat(cfg, origin, before, RoundSays(w));
    CompleteScanTracks(cfg, Run(cfg, origin, before), [StartOfRIB] + News(r.d4) + News(r.d6), w.log[r.sub..]);
  }

  lemma DecisionsTrack(cfg: LRG, s: State, done: seq<Notification>, queue: seq<Notification>)
    requires Sound(cfg, GatewaySpec.INITIAL.candidates) && Sound(cfg, s.candidates)
    requires SameDecisions(s, Run(cfg, GatewaySpec.INITIAL, done))
    requires Tracks(cfg, Run(cfg, GatewaySpec.INITIAL, done + queue))
    ensures Tracks(cfg, Run(cfg, s, queue))
  {
    hide Run, Tracks, Sound;
    var t := Run(cfg, GatewaySpec.INITIAL, done);
    RunConcat(cfg, GatewaySpec.INITIAL, done, queue);
    RunIgnoresTicks(cfg, s, t, queue);
    TracksIgnoresTicks(cfg, Run(cfg, s, queue), Run(cfg, t, queue));
  }

  // From every moment of every run at which the component follows a live subscription, whatever
  // was lost before, with or without a blackhole: if the gateway is right about the slots it may
  // end on, then the system inevitably comes to rest with the kernel holding what the gateway
  // believes in, the rewritten best of its candidates if it has any, if and only if nothing on its
  // way disarms it.
  lemma LiveSystemsSettleExactly(capacity: nat, cfg: LRG, ss: seq<System>, ts: seq<Turn>, i: nat)
    requires cfg.to.table != 0
    requires IsSystemRun(capacity, cfg, ss, ts) && i < |ss| && Live(ss[i].world)
    ensures SystemOk(cfg, ss[i])
    ensures var s := ss[i];
            var goal := Goal(cfg, LoopOf(s));
            (forall k :: (goal.Some? ==> k == SlotOf(goal.value)) ==>
               Expected(cfg, LoopOf(s), k).None? || Telling(cfg, s.world.log, SubscribedAt(s.world), k)) ==>
              (Calms(capacity, cfg, s, goal) <==> Careful(cfg, LoopOf(s)))
  {
    EverySystemIsOk(capacity, cfg, ss, ts, i);
    hide IsSystemRun, Live, Inv, Founded, SameDecisions, Calms, Careful, Target, Run, Tracks, SlotOf, Informed, Expected, Telling;
    var s := ss[i];
    var goal := Goal(cfg, LoopOf(s));
    LiveSystemsTrack(cfg, s);
    if forall k :: (goal.Some? ==> k == SlotOf(goal.value)) ==>
         Expected(cfg, LoopOf(s), k).None? || Telling(cfg, s.world.log, SubscribedAt(s.world), k)
    {
      forall k | goal.Some? ==> k == SlotOf(goal.value) ensures Informed(cfg, LoopOf(s), k) {
        GatewaysAreInformedExactly(cfg, s, k);
      }
      if Careful(cfg, LoopOf(s)) {
        CarefulSystemsCalm(capacity, cfg, s, goal);
      }
      if Calms(capacity, cfg, s, goal) {
        CalmingSystemsAreCareful(capacity, cfg, s, goal);
      }
    }
  }

  // What the daemon is for: at rest, with no stale source, the kernel holds the rewritten best of
  // the sources it holds itself, in whatever order they are taken, if and only if the copy was not
  // lost in one of the two ways.
  lemma RestingSystemIsRightExactly(capacity: nat, cfg: LRG, ss: seq<System>, ts: seq<Turn>, i: nat, sources: seq<Route>)
    requires cfg.to.table != 0
    requires IsSystemRun(capacity, cfg, ss, ts) && i < |ss| && AtRest(ss[i])
    requires Drained(ss[i].world) && DumpDelivered(cfg, ss[i].world) && !StaleInRound(cfg, ss[i].world)
    requires Sound(cfg, sources) && InSync(cfg, sources, RibOf(ss[i].world.log)) && sources != []
    ensures Best(sources).Some?
    ensures var w, copy := ss[i].world, Rewrite(Best(sources).value, cfg.to);
            HeldAt(RibOf(w.log), SlotOf(copy)) == Some(Id(copy)) <==> Telling(cfg, w.log, SubscribedAt(w), SlotOf(copy))
  {
    hide IsSystemRun, Inv, ToMatch, SlotOf, Id, Sound, Telling, HeldAt, Founded, Run, RibOf, InSync, StaleInRound, Best, FlattenAll, StreamOk, Rewrite, Equal;
    var s, w := ss[i], ss[i].world;
    EverySystemIsOk(capacity, cfg, ss, ts, i);
    StartIsSound(cfg);
    NoneHasNoBest(sources);
    DrainedMeansCaughtUp(cfg, w);
    FollowedGatewayShowsTheKernel(cfg, GatewaySpec.INITIAL, w);
    assert w.fsm.out[..s.done] == w.fsm.out;
    SameMap(cfg, s.gw.candidates, sources, RibOf(w.log));
    LiveSystemsTrack(cfg, s);
    assert LoopOf(s).queue == [] && Run(cfg, s.gw, []) == s.gw by { RunNothing(cfg, s.gw); }
    IdDecidesEqual(Target(s.gw.candidates, cfg.to).value, s.gw.current.value);
    IdDecidesEqual(Target(s.gw.candidates, cfg.to).value, Rewrite(Best(sources).value, cfg.to));
    SameIdSameSlot(s.gw.current.value, Rewrite(Best(sources).value, cfg.to));
    RestingCopyIsThereExactly(capacity, cfg, ss, ts, i);
  }

  lemma SameMap(cfg: LRG, cs: seq<Route>, ds: seq<Route>, rib: Rib)
    requires Sound(cfg, cs) && Sound(cfg, ds) && InSync(cfg, cs, rib) && InSync(cfg, ds, rib)
    ensures Target(cs, cfg.to).Some? <==> Target(ds, cfg.to).Some?
    ensures Target(cs, cfg.to).Some? ==> Equal(Target(cs, cfg.to).value, Target(ds, cfg.to).value)
  {
    hide Sound, Target, Equal, Lookup, Visible;
    TargetDependsOnMapOnly(cfg, cs, ds);
  }
}

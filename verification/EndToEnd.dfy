/**
 The synchroniser and a gateway together: whatever was lost, failed or delayed before, a gateway
 that has processed what was notified shows the kernel's routes as of the last event delivered.
 */
module EndToEnd {
  import opened Options
  import opened Routes
  import opened Configuration
  import opened GatewaySpec
  import opened Candidates
  import opened GatewayRuns
  import opened KernelLog
  import opened CatchUp
  import opened SyncSpec
  import opened World
  import opened SyncInvariant
  import opened SyncRuns

  // The history up to the last live event delivered in this round.
  function Seen(r: Round): nat
    requires r.Scanned?
  {
    r.sub + |r.live|
  }

  lemma LastScanIsDelivered(w: World)
    requires Inv(w) && Following(w)
    ensures w.rounds != []
    ensures var r := w.rounds[|w.rounds| - 1];
            && r.Scanned? && r.ended && r.t6.Some? && RoundOk(w.log, r) && WellFormed(w.log)
            && w.fsm.out == FlattenAll(w.rounds[..|w.rounds| - 1]) + (Scan(r.d4, r.d6) + Updates(w.log[r.sub..Seen(r)]))
  {
    hide Lists, RibOf, WellFormed;
    EndedOfOver(w);
    var r := w.rounds[|w.rounds| - 1];
    assert r in w.rounds;
    assert Flatten(r) == Scan(r.d4, r.d6) + Updates(r.live);
  }

  // What a gateway shows that has processed everything notified, once the component follows the
  // live channel and has delivered what happened up to the dump of the gateway's family: the
  // sources the kernel held at the last event delivered, if and only if none has gone stale since
  // the subscription of this round. Nothing is assumed of the gateway before.
  lemma FollowedGatewayShowsTheKernel(cfg: LRG, s: State, w: World)
    requires Sound(cfg, s.candidates) && Inv(w) && Following(w)
    requires DumpDelivered(cfg, w)
    ensures var r := w.rounds[|w.rounds| - 1];
            InSync(cfg, Run(cfg, s, w.fsm.out).candidates, RibOf(w.log[..Seen(r)])) <==> !StaleInRound(cfg, w)
  {
    hide StreamOk, FlattenAll, Lists, RibOf, WellFormed, Run, Sound, InSync, Scan, StaysStale;
    LastScanIsDelivered(w);
    var r := w.rounds[|w.rounds| - 1];
    var before := FlattenAll(w.rounds[..|w.rounds| - 1]);
    RunConcat(cfg, s, before, Scan(r.d4, r.d6) + Updates(w.log[r.sub..Seen(r)]));
    ScanCatchesUpExactly(cfg, Run(cfg, s, before), w.log, r.sub, r.t4, r.t6.value, Seen(r), r.d4, r.d6);
  }

  predicate DumpDelivered(cfg: LRG, w: World)
    requires w.rounds != [] && w.rounds[|w.rounds| - 1].Scanned?
  {
    var r := w.rounds[|w.rounds| - 1];
    r.t6.Some? && OwnDump(cfg, r.t4, r.t6.value) <= Seen(r) <= |w.log|
  }

  // Some event of the last round left the gateway with a source that is gone.
  predicate StaleInRound(cfg: LRG, w: World)
    requires w.rounds != [] && w.rounds[|w.rounds| - 1].Scanned? && DumpDelivered(cfg, w)
  {
    var r := w.rounds[|w.rounds| - 1];
    exists i | r.sub <= i < Seen(r) :: StaysStale(cfg, w.log, r.sub, OwnDump(cfg, r.t4, r.t6.value), Seen(r), i)
  }

  // So in every run of the whole system.
  lemma GatewaysShowTheKernel(cfg: LRG, s: State, capacity: nat, ws: seq<World>, ls: seq<Label>, i: nat)
    requires Sound(cfg, s.candidates)
    requires IsRun(capacity, ws, ls) && CleanLabels(ls) && i < |ws|
    requires Following(ws[i]) && DumpDelivered(cfg, ws[i])
    ensures var seen := Seen(ws[i].rounds[|ws[i].rounds| - 1]);
            InSync(cfg, Run(cfg, s, ws[i].fsm.out).candidates, RibOf(ws[i].log[..seen])) <==> !StaleInRound(cfg, ws[i])
  {
    hide IsRun, Sane, StreamOk, FlattenAll, RibOf, Run, Sound, InSync, StaleInRound;
    EveryRunKeepsInv(capacity, ws, ls, i);
    FollowedGatewayShowsTheKernel(cfg, s, ws[i]);
  }

  // And its last-resort route is the rewritten best of its candidates, caught up or not, with or
  // without a blackhole.
  lemma GatewaysTrackTheirBest(cfg: LRG, s: State, capacity: nat, ws: seq<World>, ls: seq<Label>, i: nat)
    requires Sound(cfg, s.candidates)
    requires IsRun(capacity, ws, ls) && CleanLabels(ls) && i < |ws|
    requires Following(ws[i])
    ensures Tracks(cfg, Run(cfg, s, ws[i].fsm.out))
  {
    hide IsRun, Sane, StreamOk, FlattenAll, Lists, RibOf, WellFormed, Run, Sound, Tracks;
    var w := ws[i];
    EveryRunKeepsInv(capacity, ws, ls, i);
    LastScanIsDelivered(w);
    var r := w.rounds[|w.rounds| - 1];
    var before := FlattenAll(w.rounds[..|w.rounds| - 1]);
    RunConcat(cfg, s, before, Scan(r.d4, r.d6) + Updates(w.log[r.sub..Seen(r)]));
    CompleteScanTracks(cfg, Run(cfg, s, before), [StartOfRIB] + News(r.d4) + News(r.d6), w.log[r.sub..Seen(r)]);
  }

  predicate Drained(w: World) {
    Following(w) && w.socket == Some([]) && w.fsm.live.Some? && w.fsm.live.value.buf == []
  }

  // When the subscription is alive and everything it saw has been delivered, the last event
  // delivered is the last that happened.
  lemma DrainedMeansCaughtUp(cfg: LRG, w: World)
    requires Inv(w) && Drained(w)
    ensures var r := w.rounds[|w.rounds| - 1];
            DumpDelivered(cfg, w) && Seen(r) == |w.log| && w.log[..Seen(r)] == w.log
  {
    hide Lists, RibOf, WellFormed, FlattenAll;
    LastScanIsDelivered(w);
    assert w.log[Seen(w.rounds[|w.rounds| - 1])..] == [];
  }

  // A drained gateway shows the kernel's present state, whatever was lost in earlier rounds, if
  // and only if none of its sources has gone stale in this one.
  lemma DrainedGatewaysAreCurrent(cfg: LRG, s: State, capacity: nat, ws: seq<World>, ls: seq<Label>, i: nat)
    requires Sound(cfg, s.candidates)
    requires IsRun(capacity, ws, ls) && CleanLabels(ls) && i < |ws| && Drained(ws[i])
    ensures DumpDelivered(cfg, ws[i])
    ensures InSync(cfg, Run(cfg, s, ws[i].fsm.out).candidates, RibOf(ws[i].log)) <==> !StaleInRound(cfg, ws[i])
  {
    hide IsRun, Sane, FlattenAll, RibOf, Run, Sound, InSync, StreamOk, StaleInRound;
    EveryRunKeepsInv(capacity, ws, ls, i);
    DrainedMeansCaughtUp(cfg, ws[i]);
    FollowedGatewayShowsTheKernel(cfg, s, ws[i]);
  }

  /* ---- A last-resort route deleted while nobody listened ---- */

  predicate NoTargetIn(cfg: LRG, dump: seq<Route>) {
    forall r <- dump :: !ToMatch(cfg.to, r)
  }

  // The sources a dump lists, in its order.
  function Sources(cfg: LRG, dump: seq<Route>): seq<Route> {
    if dump == [] then []
    else
      var rest := Sources(cfg, dump[..|dump| - 1]);
      var last := dump[|dump| - 1];
      if Watched(cfg, last) then rest + [last] else rest
  }

  // Entry `i` is a source, and has a lower TOS than every source listed before it, or the same and
  // a lower priority.
  predicate Leads(cfg: LRG, dump: seq<Route>, i: nat) {
    && i < |dump| && Watched(cfg, dump[i])
    && forall j | 0 <= j < i :: Watched(cfg, dump[j]) ==>
         dump[i].tos < dump[j].tos || (dump[i].tos == dump[j].tos && dump[i].priority < dump[j].priority)
  }

  // The copy of that entry is not the route believed installed.
  predicate Differs(cfg: LRG, dump: seq<Route>, i: nat, believed: Option<Route>)
    requires i < |dump|
  {
    believed.None? || !Equal(Rewrite(dump[i], cfg.to), believed.value)
  }

  predicate Wavers(cfg: LRG, dump: seq<Route>, believed: Option<Route>) {
    exists i | 0 <= i < |dump| :: Leads(cfg, dump, i) && Differs(cfg, dump, i, believed)
  }

  lemma {:induction false} SourcesAreListed(cfg: LRG, dump: seq<Route>)
    ensures forall c <- Sources(cfg, dump) :: Watched(cfg, c) && c in dump
    ensures forall r <- dump :: Watched(cfg, r) ==> r in Sources(cfg, dump)
  {
    if dump != [] {
      var front, last := dump[..|dump| - 1], dump[|dump| - 1];
      SourcesAreListed(cfg, front);
      assert dump == front + [last];
    }
  }

  // A source whose slot is not among the candidates' is added behind them.
  lemma {:induction false} NothingReplaced(cs: seq<Route>, r: Route)
    requires r.dst.Some? && HaveDestinations(cs) && forall c <- cs :: SlotOf(c) != SlotOf(r)
    ensures Unreplaced(cs, r) == cs
  {
    hide Replaces, SlotOf;
    if cs != [] {
      var front, last := cs[..|cs| - 1], cs[|cs| - 1];
      assert cs == front + [last];
      NothingReplaced(front, r);
      ReplacesIsSameSlot(r, last);
    }
  }

  lemma AddBehind(cs: seq<Route>, r: Route)
    requires r.dst.Some? && HaveDestinations(cs) && forall c <- cs :: SlotOf(c) != SlotOf(r)
    ensures Add(cs, r) == cs + [r]
  {
    hide SlotOf, Unreplaced, Equal;
    NothingReplaced(cs, r);
    if i :| 0 <= i < |cs| && Equal(cs[i], r) {
      IdDecidesEqual(cs[i], r);
      SameIdSameSlot(cs[i], r);
    }
  }

  // Better than the best of the sources is better than every one of them.
  lemma LeaderBeatsBest(cfg: LRG, front: seq<Route>, last: Route)
    requires Watched(cfg, last)
    ensures var best := Best(Sources(cfg, front));
            Leads(cfg, front + [last], |front|) <==> best.None? || Better(last, best.value)
  {
    hide Watched, Best;
    var cs := Sources(cfg, front);
    SourcesAreListed(cfg, front);
    var dump := front + [last];
    NoneHasNoBest(cs);
    if cs == [] {
      assert forall j | 0 <= j < |front| :: dump[j] == front[j] && front[j] in front;
    } else {
      var b := BestIndex(cs);
      assert cs[b] in cs;
      var m :| 0 <= m < |front| && front[m] == cs[b];
      assert dump[m] == front[m] && Watched(cfg, cs[b]);
      forall j | 0 <= j < |front| && Watched(cfg, dump[j]) && Better(last, cs[b]) ensures Better(last, dump[j]) {
        assert front[j] in front;
        var i :| 0 <= i < |cs| && cs[i] == front[j];
        assert cs[b].tos <= cs[i].tos;
      }
    }
  }

  lemma WaversExtends(cfg: LRG, front: seq<Route>, last: Route, believed: Option<Route>)
    ensures var dump := front + [last];
            Wavers(cfg, dump, believed) <==>
            Wavers(cfg, front, believed) || (Leads(cfg, dump, |front|) && Differs(cfg, dump, |front|, believed))
  {
    hide Watched, Equal, Rewrite;
    var dump := front + [last];
    forall i | 0 <= i < |front|
      ensures Leads(cfg, dump, i) == Leads(cfg, front, i) && Differs(cfg, dump, i, believed) == Differs(cfg, front, i, believed)
    {
      assert forall j | 0 <= j <= i :: dump[j] == front[j];
    }
  }

  // What a gateway makes of StartOfRIB and a dump that lists no target: the sources are its
  // candidates, and an installation is pending if one was, or if the dump wavers.
  predicate AfterDump(cfg: LRG, s: State, dump: seq<Route>, t: State) {
    && t.candidates == Sources(cfg, dump)
    && (t.tick <==> s.tick || Wavers(cfg, dump, s.current))
    && (!Wavers(cfg, dump, s.current) ==> t.current == s.current && t.changes == s.changes)
    && (t.candidates != [] ==> Tracks(cfg, t))
  }

  lemma SourceStep(cfg: LRG, s: State, front: seq<Route>, last: Route, t: State)
    requires Sound(cfg, t.candidates) && AfterDump(cfg, s, front, t)
    requires Watched(cfg, last) && DistinctSlots(front + [last])
    ensures AfterDump(cfg, s, front + [last], Step(cfg, t, NewNote(last)))
  {
    hide Watched, ToMatch, FromMatch, Best, Equal, Leads, Wavers, Sound, Better, SlotOf, Add;
    SourcesAreListed(cfg, front);
    SoundHasDestinations(cfg, t.candidates);
    var dump := front + [last];
    var u := Step(cfg, t, NewNote(last));
    HasDestination(cfg, last);
    forall c <- t.candidates ensures SlotOf(c) != SlotOf(last) {
      var i :| 0 <= i < |front| && front[i] == c;
      assert dump[i] == c && dump[|front|] == last;
    }
    AddBehind(t.candidates, last);
    WatchedIsMatched(cfg, last);
    StepChangesCandidates(cfg, t, NewNote(last));
    assert dump[..|dump| - 1] == front;
    assert u.candidates == t.candidates + [last];
    LeaderBeatsBest(cfg, front, last);
    WaversExtends(cfg, front, last, s.current);
    BestOfMore(t.candidates, last);
    StepTracks(cfg, t, NewNote(last));
    WatchedStepInstalls(cfg, t, last);
    NoneHasNoBest(t.candidates);
  }

  lemma WatchedIsMatched(cfg: LRG, r: Route)
    requires Watched(cfg, r)
    ensures Matched(cfg, RouteUpdate(NewRoute, r)) && !ToMatch(cfg.to, r)
  {
  }

  lemma WatchedStepInstalls(cfg: LRG, t: State, r: Route)
    requires HaveDestinations(t.candidates) && Watched(cfg, r)
    ensures Step(cfg, t, NewNote(r)) == Install(cfg, t.(candidates := After(cfg, t.candidates, NewNote(r))))
  {
  }

  lemma BestOfMore(cs: seq<Route>, c: Route)
    ensures Best(cs + [c]) == if Best(cs).None? || Better(c, Best(cs).value) then Some(c) else Best(cs)
  {
    assert (cs + [c])[..|cs|] == cs;
  }

  lemma OtherStep(cfg: LRG, s: State, front: seq<Route>, last: Route, t: State)
    requires Sound(cfg, t.candidates) && AfterDump(cfg, s, front, t)
    requires !Watched(cfg, last) && !ToMatch(cfg.to, last)
    ensures AfterDump(cfg, s, front + [last], Step(cfg, t, NewNote(last)))
  {
    hide ToMatch, FromMatch, Equal, Tracks, Sound, Wavers;
    var dump := front + [last];
    assert dump[..|dump| - 1] == front;
    StepTracks(cfg, t, NewNote(last));
    WaversExtends(cfg, front, last, s.current);
  }

  lemma {:induction false} DumpIsRead(cfg: LRG, s: State, dump: seq<Route>)
    requires Sound(cfg, s.candidates) && NoTargetIn(cfg, dump) && DistinctSlots(dump)
    ensures AfterDump(cfg, s, dump, Run(cfg, s, [StartOfRIB] + News(dump)))
    decreases |dump|
  {
    hide Run, Step, Sound, ToMatch, Watched, SlotOf, AfterDump, DistinctSlots, NoTargetIn;
    if dump == [] {
      assert [StartOfRIB] + News(dump) == [] + [StartOfRIB];
      RunExtends(cfg, s, [], StartOfRIB);
      RunNothing(cfg, s);
      StartIsRead(cfg, s);
    } else {
      var front, last := dump[..|dump| - 1], dump[|dump| - 1];
      assert dump == front + [last];
      FrontIsDumpToo(cfg, front, last);
      DumpIsRead(cfg, s, front);
      assert [StartOfRIB] + News(dump) == ([StartOfRIB] + News(front)) + [NewNote(last)];
      RunExtends(cfg, s, [StartOfRIB] + News(front), NewNote(last));
      var t := Run(cfg, s, [StartOfRIB] + News(front));
      if Watched(cfg, last) {
        SourceStep(cfg, s, front, last, t);
      } else {
        OtherStep(cfg, s, front, last, t);
      }
    }
  }

  lemma FrontIsDumpToo(cfg: LRG, front: seq<Route>, last: Route)
    requires NoTargetIn(cfg, front + [last]) && DistinctSlots(front + [last])
    ensures NoTargetIn(cfg, front) && DistinctSlots(front) && !ToMatch(cfg.to, last)
  {
    hide ToMatch, SlotOf;
    var dump := front + [last];
    assert last in dump && forall r <- front :: r in dump;
    assert forall i | 0 <= i < |front| :: dump[i] == front[i];
  }

  lemma StartIsRead(cfg: LRG, s: State)
    requires Sound(cfg, s.candidates)
    ensures AfterDump(cfg, s, [], Step(cfg, s, StartOfRIB))
  {
  }

  // When the copy was deleted from the kernel and the notification was lost, a rescan, which then
  // lists no target, installs one again exactly when some source of the dump, better than all the
  // sources before it, has another copy than the one believed installed; or when the dump lists no
  // source at all and a blackhole is wanted that is not believed installed. The synchroniser
  // cannot tell the gateway that its last-resort route is gone.
  lemma LostDeletionIsRepairedExactly(cfg: LRG, s: State, dump: seq<Route>)
    requires Sound(cfg, s.candidates) && !s.tick
    requires NoTargetIn(cfg, dump) && DistinctSlots(dump)
    ensures Run(cfg, s, [StartOfRIB] + News(dump) + [EndOfRIB]).tick <==>
            || Wavers(cfg, dump, s.current)
            || (&& (forall r <- dump :: !Watched(cfg, r))
                && cfg.to.blackhole && (s.current.None? || !Equal(Rewrite(BLACKHOLE, cfg.to), s.current.value)))
    ensures !Run(cfg, s, [StartOfRIB] + News(dump) + [EndOfRIB]).tick ==>
              && Run(cfg, s, [StartOfRIB] + News(dump) + [EndOfRIB]).current == s.current
              && Run(cfg, s, [StartOfRIB] + News(dump) + [EndOfRIB]).changes == s.changes
  {
    hide Run, Equal, Sound, Watched, Wavers;
    DumpIsRead(cfg, s, dump);
    RunExtends(cfg, s, [StartOfRIB] + News(dump), EndOfRIB);
    SourcesAreListed(cfg, dump);
    NoneHasNoBest(Sources(cfg, dump));
    assert Sources(cfg, dump) != [] ==> Sources(cfg, dump)[0] in Sources(cfg, dump);
    NoSourceNoWaver(cfg, dump, s.current);
  }

  lemma NoSourceNoWaver(cfg: LRG, dump: seq<Route>, believed: Option<Route>)
    ensures (forall r <- dump :: !Watched(cfg, r)) ==> !Wavers(cfg, dump, believed)
  {
    hide Watched, Equal;
  }

  // With a single source, already copied, nothing happens: the deleted copy stays missing.
  lemma SingleSourceStaysMissing(cfg: LRG, s: State, source: Route)
    requires Sound(cfg, s.candidates) && !s.tick && s.current.Some?
    requires Watched(cfg, source) && Equal(Rewrite(source, cfg.to), s.current.value)
    ensures var t := Run(cfg, s, [StartOfRIB] + News([source]) + [EndOfRIB]);
            !t.tick && t.current == s.current && t.changes == s.changes
  {
    hide Run, Equal, Sound, Watched;
    WatchedIsMatched(cfg, source);
    LostDeletionIsRepairedExactly(cfg, s, [source]);
    assert [source][0] in [source];
  }
}

/**
 Snapshot plus log: subscribing first, dumping next and replaying afterwards everything that
 happened since the subscription gives a gateway exactly what the kernel holds, although the
 replay starts in the past of the dump (netlink/root.go:130-158).
 */
module CatchUp {
  import opened Options
  import opened IPNets
  import opened Routes
  import opened Configuration
  import opened GatewaySpec
  import opened Candidates
  import opened GatewayRuns
  import opened KernelLog

  // The candidates are the kernel's routes, as this gateway filters them.
  ghost predicate InSync(cfg: LRG, candidates: seq<Route>, rib: Rib) {
    forall k :: Lookup(candidates, k) == Visible(cfg, rib, k)
  }

  ghost predicate ListedAt(cfg: LRG, dump: seq<Route>, k: Slot) {
    exists r <- dump :: Watched(cfg, r) && SlotOf(r) == k
  }

  lemma RunNothing(cfg: LRG, s: State)
    requires Sound(cfg, s.candidates)
    ensures Run(cfg, s, []) == s
  {
  }

  // Reading a dump writes the slots of the sources it lists and no other.
  lemma {:induction false} DumpLoads(cfg: LRG, s: State, dump: seq<Route>, k: Slot)
    requires Sound(cfg, s.candidates)
    requires DistinctSlots(dump)
    ensures forall r <- dump :: Watched(cfg, r) && SlotOf(r) == k ==>
              Lookup(Run(cfg, s, News(dump)).candidates, k) == Some(Id(r))
    ensures !ListedAt(cfg, dump, k) ==> Lookup(Run(cfg, s, News(dump)).candidates, k) == Lookup(s.candidates, k)
    decreases |dump|
  {
    hide Step, Run, ToMatch, FromMatch;
    if dump == [] {
      assert News(dump) == [];
      assert Run(cfg, s, []) == s by { RunNothing(cfg, s); }
    } else {
      var front, last := dump[..|dump| - 1], dump[|dump| - 1];
      DumpLoads(cfg, s, front, k);
      assert News(dump) == News(front) + [NewNote(last)];
      RunExtends(cfg, s, News(front), NewNote(last));
      UpdateRefinesMap(cfg, Run(cfg, s, News(front)), RouteUpdate(NewRoute, last), k);
      forall r <- dump ensures r in front || r == last {
      }
      assert last in dump;
      assert forall r <- front :: r in dump;
    }
  }

  // After StartOfRIB and the two dumps, whatever the gateway believed before, its candidates are
  // what the dump of its own family saw.
  lemma DumpsLoad(cfg: LRG, s: State, d4: seq<Route>, d6: seq<Route>, rib4: Rib, rib6: Rib)
    requires Sound(cfg, s.candidates)
    requires Lists(d4, rib4, V4) && Lists(d6, rib6, V6)
    requires forall k <- rib4 :: SlotOf(rib4[k]) == k
    requires forall k <- rib6 :: SlotOf(rib6[k]) == k
    ensures InSync(cfg, Run(cfg, s, [StartOfRIB] + News(d4) + News(d6) + [EndOfRIB]).candidates,
                   if FamilyOf(cfg) == V4 then rib4 else rib6)
  {
    var s0 := Run(cfg, s, [StartOfRIB]);
    assert s0.candidates == [] by { RunExtends(cfg, s, [], StartOfRIB); assert [] + [StartOfRIB] == [StartOfRIB]; }
    var s4 := Run(cfg, s0, News(d4));
    var s6 := Run(cfg, s4, News(d6));
    RunConcat(cfg, s, [StartOfRIB], News(d4));
    RunConcat(cfg, s, [StartOfRIB] + News(d4), News(d6));
    RunExtends(cfg, s, [StartOfRIB] + News(d4) + News(d6), EndOfRIB);
    StepChangesCandidates(cfg, s6, EndOfRIB);
    forall k ensures Lookup(s6.candidates, k) == Visible(cfg, if FamilyOf(cfg) == V4 then rib4 else rib6, k) {
      DumpShows(cfg, s0, d4, rib4, V4, k);
      DumpShows(cfg, s4, d6, rib6, V6, k);
    }
  }

  lemma DumpShows(cfg: LRG, s: State, dump: seq<Route>, rib: Rib, f: Family, k: Slot)
    requires Sound(cfg, s.candidates) && Lists(dump, rib, f)
    requires forall k <- rib :: SlotOf(rib[k]) == k
    ensures Lookup(Run(cfg, s, News(dump)).candidates, k) ==
            if f == FamilyOf(cfg) && Visible(cfg, rib, k).Some? then Visible(cfg, rib, k) else Lookup(s.candidates, k)
  {
    hide Step, Run, ToMatch, FromMatch, Sound;
    DumpLoads(cfg, s, dump, k);
    if k in rib && Watched(cfg, rib[k]) {
      SourcesAreOfOneFamily(cfg, rib[k], f);
    }
  }

  // One replayed event. A slot that shows the kernel's state before the event shows its state
  // after it; a slot that shows something else (`w`, from the future) may keep showing it.
  lemma ReplayStep(cfg: LRG, s: State, rib: Rib, u: RouteUpdate, k: Slot, w: Option<RouteId>)
    requires Sound(cfg, s.candidates) && Legal(rib, u) && !Masks(cfg, rib, u)
    requires forall k <- rib :: SlotOf(rib[k]) == k
    requires Lookup(s.candidates, k) == Visible(cfg, rib, k) || Lookup(s.candidates, k) == w
    ensures var shown := Lookup(Step(cfg, s, Update(u)).candidates, k);
            shown == Visible(cfg, Apply(rib, u), k) || shown == w
  {
    hide Step, Lookup, FromMatch, ToMatch, Equal, SlotOf, Sound, RibOf;
    UpdateRefinesMap(cfg, s, u, k);
    if u.kind == DelRoute {
      IdDecidesEqual(rib[SlotOf(u.route)], u.route);
      MatchersRespectEqual(cfg, rib[SlotOf(u.route)], u.route);
    }
  }

  // A gateway in sync stays in sync over an event exactly when the event masks none of its sources.
  lemma SyncBreaksByMasking(cfg: LRG, s: State, rib: Rib, u: RouteUpdate)
    requires Sound(cfg, s.candidates) && Legal(rib, u)
    requires forall k <- rib :: SlotOf(rib[k]) == k
    requires InSync(cfg, s.candidates, rib)
    ensures InSync(cfg, Step(cfg, s, Update(u)).candidates, Apply(rib, u)) <==> !Masks(cfg, rib, u)
  {
    hide Step, Lookup, FromMatch, ToMatch, Equal, SlotOf, Sound, RibOf;
    SoundHasDestinations(cfg, s.candidates);
    if Masks(cfg, rib, u) {
      var k := SlotOf(u.route);
      UpdateRefinesMap(cfg, s, u, k);
      assert Lookup(Step(cfg, s, Update(u)).candidates, k) == Visible(cfg, rib, k) != Visible(cfg, Apply(rib, u), k);
    } else {
      forall k ensures Lookup(Step(cfg, s, Update(u)).candidates, k) == Visible(cfg, Apply(rib, u), k) {
        ReplayStep(cfg, s, rib, u, k, Visible(cfg, rib, k));
        UpdateRefinesMap(cfg, s, u, k);
        if u.kind == DelRoute {
          IdDecidesEqual(rib[SlotOf(u.route)], u.route);
          MatchersRespectEqual(cfg, rib[SlotOf(u.route)], u.route);
        }
      }
    }
  }

  lemma ReplayExtends(cfg: LRG, s: State, log: Log, sub: nat, i: nat)
    requires Sound(cfg, s.candidates) && sub <= i < |log|
    ensures Run(cfg, s, Updates(log[sub..i + 1])) == Step(cfg, Run(cfg, s, Updates(log[sub..i])), Update(log[i]))
  {
    assert Updates(log[sub..i + 1]) == Updates(log[sub..i]) + [Update(log[i])];
    RunExtends(cfg, s, Updates(log[sub..i]), Update(log[i]));
  }

  // While the replay is still behind the dump, every slot shows what the kernel held at the point
  // of the replay or what it held at the dump.
  lemma {:induction false} ReplayBehindDump(cfg: LRG, s: State, log: Log, sub: nat, t: nat, i: nat, k: Slot)
    requires Sound(cfg, s.candidates) && WellFormed(log)
    requires sub <= i <= t <= |log| && NoMasking(cfg, log, sub, t)
    requires InSync(cfg, s.candidates, RibOf(log[..t]))
    ensures var shown := Lookup(Run(cfg, s, Updates(log[sub..i])).candidates, k);
            shown == Visible(cfg, RibOf(log[..i]), k) || shown == Visible(cfg, RibOf(log[..t]), k)
    decreases i
  {
    hide Step, Run, Visible, Lookup, Apply, Masks, Legal, RibOf, Sound, After;
    if i == sub {
      assert Updates(log[sub..i]) == [];
      RunNothing(cfg, s);
    } else {
      ReplayBehindDump(cfg, s, log, sub, t, i - 1, k);
      ReplayExtends(cfg, s, log, sub, i - 1);
      RibStep(log, i - 1);
      ReplayStep(cfg, Run(cfg, s, Updates(log[sub..i - 1])), RibOf(log[..i - 1]), log[i - 1], k, Visible(cfg, RibOf(log[..t]), k));
    }
  }

  // Once the replay has caught up with the dump, the gateway shows the kernel's state at every
  // point, for exactly as long as no source has been masked.
  lemma {:induction false} ReplayAheadOfDump(cfg: LRG, s: State, log: Log, sub: nat, t: nat, n: nat)
    requires Sound(cfg, s.candidates) && WellFormed(log)
    requires sub <= t <= n <= |log| && NoMasking(cfg, log, sub, t)
    requires InSync(cfg, s.candidates, RibOf(log[..t]))
    ensures NoMasking(cfg, log, t, n) <==>
            forall m | t <= m <= n :: InSync(cfg, Run(cfg, s, Updates(log[sub..m])).candidates, RibOf(log[..m]))
    decreases n
  {
    hide Step, Run, Visible, Lookup, Apply, Masks, Legal, RibOf, Sound, After;
    if n == t {
      forall k ensures Lookup(Run(cfg, s, Updates(log[sub..t])).candidates, k) == Visible(cfg, RibOf(log[..t]), k) {
        ReplayBehindDump(cfg, s, log, sub, t, t, k);
      }
    } else {
      ReplayAheadOfDump(cfg, s, log, sub, t, n - 1);
      ReplayExtends(cfg, s, log, sub, n - 1);
      RibStep(log, n - 1);
      var before := Run(cfg, s, Updates(log[sub..n - 1]));
      if InSync(cfg, before.candidates, RibOf(log[..n - 1])) {
        SyncBreaksByMasking(cfg, before, RibOf(log[..n - 1]), log[n - 1]);
      }
    }
  }

  /* ---- Any log at all ---- */

  // `u` shows a source of the gateway at slot `k`.
  predicate ShowsSource(cfg: LRG, u: RouteUpdate, k: Slot) {
    u.kind == NewRoute && Watched(cfg, u.route) && SlotOf(u.route) == k
  }

  predicate Shown(cfg: LRG, log: Log, from: nat, to: nat, k: Slot)
    requires to <= |log|
  {
    exists i | from <= i < to :: ShowsSource(cfg, log[i], k)
  }

  // Event `i` masked a source that the gateway knew of, from a dump at `t` or from the replay
  // since `sub`, and up to `n` nothing was shown in its place.
  predicate StaysStale(cfg: LRG, log: Log, sub: nat, t: nat, n: nat, i: nat)
    requires i < n <= |log|
  {
    && Masks(cfg, RibOf(log[..i]), log[i])
    && !Shown(cfg, log, i + 1, n, SlotOf(log[i].route))
    && (i >= t || Shown(cfg, log, sub, i, SlotOf(log[i].route)))
  }

  predicate StaleAt(cfg: LRG, log: Log, sub: nat, t: nat, n: nat, k: Slot)
    requires n <= |log|
  {
    exists i | sub <= i < n :: SlotOf(log[i].route) == k && StaysStale(cfg, log, sub, t, n, i)
  }

  lemma StaleStep(cfg: LRG, log: Log, sub: nat, t: nat, n: nat, k: Slot)
    requires sub <= n < |log|
    ensures Shown(cfg, log, sub, n + 1, k) <==> Shown(cfg, log, sub, n, k) || ShowsSource(cfg, log[n], k)
    ensures StaleAt(cfg, log, sub, t, n + 1, k) <==>
            && !ShowsSource(cfg, log[n], k)
            && (|| StaleAt(cfg, log, sub, t, n, k)
                || (&& Masks(cfg, RibOf(log[..n]), log[n]) && SlotOf(log[n].route) == k
                    && (n >= t || Shown(cfg, log, sub, n, k))))
  {
    hide Masks, ShowsSource, RibOf;
    if StaleAt(cfg, log, sub, t, n, k) && !ShowsSource(cfg, log[n], k) {
      var i :| sub <= i < n && SlotOf(log[i].route) == k && StaysStale(cfg, log, sub, t, n, i);
      assert StaysStale(cfg, log, sub, t, n + 1, i);
    }
    if StaleAt(cfg, log, sub, t, n + 1, k) {
      var i :| sub <= i < n + 1 && SlotOf(log[i].route) == k && StaysStale(cfg, log, sub, t, n + 1, i);
      if i < n {
        assert StaysStale(cfg, log, sub, t, n, i);
      } else {
        assert !Masks(cfg, RibOf(log[..n]), log[n]) || !ShowsSource(cfg, log[n], k) by { MaskIsNoSource(cfg, RibOf(log[..n]), log[n], k); }
      }
    }
    if !ShowsSource(cfg, log[n], k) && Masks(cfg, RibOf(log[..n]), log[n]) && SlotOf(log[n].route) == k && (n >= t || Shown(cfg, log, sub, n, k)) {
      assert StaysStale(cfg, log, sub, t, n + 1, n);
    }
  }

  lemma MaskIsNoSource(cfg: LRG, rib: Rib, u: RouteUpdate, k: Slot)
    requires Masks(cfg, rib, u)
    ensures !ShowsSource(cfg, u, k)
  {
  }

  // One event at one slot, whatever the gateway shows there.
  lemma ReplayedEvent(cfg: LRG, s: State, rib: Rib, u: RouteUpdate, k: Slot)
    requires Sound(cfg, s.candidates) && Legal(rib, u)
    requires forall k <- rib :: SlotOf(rib[k]) == k
    ensures var shown, here := Lookup(s.candidates, k), Visible(cfg, rib, k);
            var shown', here' := Lookup(Step(cfg, s, Update(u)).candidates, k), Visible(cfg, Apply(rib, u), k);
            if ShowsSource(cfg, u, k) then shown' == here'
            else if Masks(cfg, rib, u) && SlotOf(u.route) == k then shown' == shown && here.Some? && here'.None?
            else
              && (shown == here ==> shown' == here')
              && (here.None? ==> shown' == shown && here'.None?)
              && (shown' == shown || (shown'.None? && here'.None?))
  {
    hide Step, Lookup, FromMatch, ToMatch, Equal, SlotOf, Sound, RibOf;
    UpdateRefinesMap(cfg, s, u, k);
    if u.kind == DelRoute {
      IdDecidesEqual(rib[SlotOf(u.route)], u.route);
      MatchersRespectEqual(cfg, rib[SlotOf(u.route)], u.route);
    }
  }

  // A slot past the dump, or written by the replay, shows what the kernel holds, unless it is
  // stale; before that it shows what the dump saw, or nothing where the kernel holds nothing.
  lemma {:induction false} ReplayedSlot(cfg: LRG, s: State, log: Log, sub: nat, t: nat, n: nat, k: Slot)
    requires Sound(cfg, s.candidates) && WellFormed(log)
    requires sub <= t <= |log| && sub <= n <= |log|
    requires InSync(cfg, s.candidates, RibOf(log[..t]))
    ensures var shown, here := Lookup(Run(cfg, s, Updates(log[sub..n])).candidates, k), Visible(cfg, RibOf(log[..n]), k);
            if n >= t || Shown(cfg, log, sub, n, k) then
              if StaleAt(cfg, log, sub, t, n, k) then shown.Some? && here.None? else shown == here
            else shown == Visible(cfg, RibOf(log[..t]), k) || (shown.None? && here.None?)
    decreases n
  {
    hide Step, Run, Visible, Lookup, Apply, Masks, Legal, RibOf, Sound, After, ShowsSource, StaleAt, Shown;
    if n == sub {
      assert Updates(log[sub..n]) == [];
      RunNothing(cfg, s);
      NothingIsStale(cfg, log, sub, t, k);
    } else {
      ReplayedSlot(cfg, s, log, sub, t, n - 1, k);
      ReplayExtends(cfg, s, log, sub, n - 1);
      RibStep(log, n - 1);
      StaleStep(cfg, log, sub, t, n - 1, k);
      ReplayedEvent(cfg, Run(cfg, s, Updates(log[sub..n - 1])), RibOf(log[..n - 1]), log[n - 1], k);
      NotStaleBeforeDump(cfg, log, sub, t, n, k);
    }
  }

  lemma NothingIsStale(cfg: LRG, log: Log, sub: nat, t: nat, k: Slot)
    requires sub <= |log|
    ensures !Shown(cfg, log, sub, sub, k) && !StaleAt(cfg, log, sub, t, sub, k)
  {
  }

  lemma NotStaleBeforeDump(cfg: LRG, log: Log, sub: nat, t: nat, n: nat, k: Slot)
    requires n <= |log|
    ensures n <= t && StaleAt(cfg, log, sub, t, n, k) ==> Shown(cfg, log, sub, n, k)
  {
    hide Masks, ShowsSource, RibOf;
  }

  // So the replay leaves the gateway in sync if and only if no event since the subscription left
  // it with a stale source, whatever the log.
  lemma ReplayIsExact(cfg: LRG, s: State, log: Log, sub: nat, t: nat, n: nat)
    requires Sound(cfg, s.candidates) && WellFormed(log)
    requires sub <= t <= n <= |log|
    requires InSync(cfg, s.candidates, RibOf(log[..t]))
    ensures InSync(cfg, Run(cfg, s, Updates(log[sub..n])).candidates, RibOf(log[..n])) <==>
            !exists i | sub <= i < n :: StaysStale(cfg, log, sub, t, n, i)
  {
    hide Run, Visible, Lookup, RibOf, Sound, StaysStale;
    if i :| sub <= i < n && StaysStale(cfg, log, sub, t, n, i) {
      ReplayedSlot(cfg, s, log, sub, t, n, SlotOf(log[i].route));
    } else {
      forall k ensures Lookup(Run(cfg, s, Updates(log[sub..n])).candidates, k) == Visible(cfg, RibOf(log[..n]), k) {
        ReplayedSlot(cfg, s, log, sub, t, n, k);
      }
    }
  }

  function Scan(d4: seq<Route>, d6: seq<Route>): seq<Notification> {
    [StartOfRIB] + News(d4) + News(d6) + [EndOfRIB]
  }

  // The moment the dump of the gateway's own family was taken.
  function OwnDump(cfg: LRG, t4: nat, t6: nat): nat {
    if FamilyOf(cfg) == V4 then t4 else t6
  }

  // One complete scan, whatever the gateway believed before it: subscribed at `sub`, the families
  // dumped at `t4` and `t6`, and everything since `sub` replayed up to `n`. Whatever the log, the
  // candidates are the kernel's sources if and only if no event since `sub` left a stale one.
  lemma ScanCatchesUpExactly(cfg: LRG, s: State, log: Log, sub: nat, t4: nat, t6: nat, n: nat, d4: seq<Route>, d6: seq<Route>)
    requires Sound(cfg, s.candidates) && WellFormed(log)
    requires sub <= t4 <= t6 <= |log| && OwnDump(cfg, t4, t6) <= n <= |log|
    requires Lists(d4, RibOf(log[..t4]), V4) && Lists(d6, RibOf(log[..t6]), V6)
    ensures InSync(cfg, Run(cfg, s, Scan(d4, d6) + Updates(log[sub..n])).candidates, RibOf(log[..n])) <==>
            !exists i | sub <= i < n :: StaysStale(cfg, log, sub, OwnDump(cfg, t4, t6), n, i)
  {
    hide Run, RibOf, Sound, StaysStale, Lists;
    DumpsLoad(cfg, s, d4, d6, RibOf(log[..t4]), RibOf(log[..t6]));
    ReplayIsExact(cfg, Run(cfg, s, Scan(d4, d6)), log, sub, OwnDump(cfg, t4, t6), n);
    RunConcat(cfg, s, Scan(d4, d6), Updates(log[sub..n]));
  }

  // In particular a log that masks no source since the subscription leaves none stale.
  lemma ScanCatchesUp(cfg: LRG, s: State, log: Log, sub: nat, t4: nat, t6: nat, n: nat, d4: seq<Route>, d6: seq<Route>)
    requires Sound(cfg, s.candidates) && WellFormed(log)
    requires sub <= t4 <= t6 <= |log| && OwnDump(cfg, t4, t6) <= n <= |log|
    requires Lists(d4, RibOf(log[..t4]), V4) && Lists(d6, RibOf(log[..t6]), V6)
    requires NoMasking(cfg, log, sub, n)
    ensures InSync(cfg, Run(cfg, s, Scan(d4, d6) + Updates(log[sub..n])).candidates, RibOf(log[..n]))
  {
    hide Run, RibOf, Sound, Lists, InSync, Masks, Shown;
    ScanCatchesUpExactly(cfg, s, log, sub, t4, t6, n, d4, d6);
  }

  // The daemon can mask a source by itself: when a source occupies the slot of its target (same
  // table, prefix, TOS and metric, another protocol), the copy replaces it in the kernel, and the
  // source stays among the candidates although it is gone.
  lemma OwnCopyMasksSource(cfg: LRG, s: State, source: Route)
    requires Sound(cfg, s.candidates)
    requires Watched(cfg, source) && SlotOf(source) == SlotOf(Rewrite(source, cfg.to))
    ensures var log := [RouteUpdate(NewRoute, source), RouteUpdate(NewRoute, Rewrite(source, cfg.to))];
            && WellFormed(log)
            && !NoMasking(cfg, log, 0, 2)
            && Visible(cfg, RibOf(log), SlotOf(source)).None?
            && Lookup(Run(cfg, s, Updates(log)).candidates, SlotOf(source)) == Some(Id(source))
  {
    var copy := Rewrite(source, cfg.to);
    var u, v := RouteUpdate(NewRoute, source), RouteUpdate(NewRoute, copy);
    var log := [u, v];
    hide Step, Run, ToMatch, FromMatch, Sound, After, Updates, Lookup, SlotOf, Id, Rewrite;
    RewriteMatchesTo(source, cfg.to);
    assert log[..0] == [] && log[..1] == [u] && log[..2] == log;
    RibStep(log, 0);
    RibStep(log, 1);
    assert Masks(cfg, RibOf(log[..1]), log[1]);
    var k := SlotOf(source);
    assert Updates([]) == [] && Updates(log[0..1]) == [Update(u)] && Updates(log[0..2]) == Updates(log);
    ReplayExtends(cfg, s, log, 0, 0);
    ReplayExtends(cfg, s, log, 0, 1);
    RunNothing(cfg, s);
    UpdateRefinesMap(cfg, s, u, k);
    UpdateRefinesMap(cfg, Run(cfg, s, Updates(log[0..1])), v, k);
  }
}

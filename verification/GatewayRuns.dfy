/** What holds of a gateway over every run: any notifications, any timing and outcome of the ticks. */
module GatewayRuns {
  import opened Options
  import opened IPNets
  import opened Routes
  import opened Configuration
  import opened GatewaySpec
  import opened Candidates
  import opened KernelLog

  /* ---- One notification ---- */

  // The effect of a notification on the candidates, which is all that depends on the candidates.
  function After(cfg: LRG, cs: seq<Route>, n: Notification): seq<Route>
    requires HaveDestinations(cs)
  {
    match n
    case StartOfRIB => []
    case EndOfRIB => cs
    case Update(u) =>
      if !Watched(cfg, u.route) then cs
      else match u.kind
           case NewRoute => Add(cs, u.route)
           case DelRoute => Without(cs, u.route)
           case OtherUpdate => cs
  }

  lemma SoundHasDestinations(cfg: LRG, cs: seq<Route>)
    requires Sound(cfg, cs)
    ensures HaveDestinations(cs)
  {
  }

  lemma AfterKeepsSound(cfg: LRG, cs: seq<Route>, n: Notification)
    requires Sound(cfg, cs)
    ensures Sound(cfg, After(cfg, cs, n))
  {
    if n.Update? && Watched(cfg, n.update.route) {
      match n.update.kind
      case NewRoute => AddUpdatesMap(cfg, cs, n.update.route, SlotOf(n.update.route));
      case DelRoute => WithoutIsSound(cfg, cs, n.update.route);
      case OtherUpdate =>
    }
  }

  // The candidates after an update, as a map: NEWROUTE of a source writes its slot, DELROUTE of a
  // source clears its slot if it holds that very route, and nothing else touches the map.
  lemma UpdateRefinesMap(cfg: LRG, s: State, u: RouteUpdate, k: Slot)
    requires Sound(cfg, s.candidates)
    ensures Sound(cfg, Step(cfg, s, Update(u)).candidates)
    ensures Lookup(Step(cfg, s, Update(u)).candidates, k) ==
            if Watched(cfg, u.route) && u.kind == NewRoute && k == SlotOf(u.route) then Some(Id(u.route))
            else if Watched(cfg, u.route) && u.kind == DelRoute && Lookup(s.candidates, k) == Some(Id(u.route)) then None
            else Lookup(s.candidates, k)
  {
    StepChangesCandidates(cfg, s, Update(u));
    AfterKeepsSound(cfg, s.candidates, Update(u));
    if Watched(cfg, u.route) && u.kind == NewRoute {
      AddUpdatesMap(cfg, s.candidates, u.route, k);
    } else if Watched(cfg, u.route) && u.kind == DelRoute {
      WithoutRemovesIfEqual(cfg, s.candidates, u.route, k);
    }
  }

  lemma StepChangesCandidates(cfg: LRG, s: State, n: Notification)
    requires HaveDestinations(s.candidates)
    ensures Step(cfg, s, n).candidates == After(cfg, s.candidates, n)
  {
  }

  lemma StepKeepsSound(cfg: LRG, s: State, n: Notification)
    requires Sound(cfg, s.candidates)
    ensures HaveDestinations(s.candidates) && Sound(cfg, Step(cfg, s, n).candidates)
  {
    SoundHasDestinations(cfg, s.candidates);
    StepChangesCandidates(cfg, s, n);
    AfterKeepsSound(cfg, s.candidates, n);
  }

  lemma RewriteMatchesTo(r: Route, to: LRGTo)
    ensures ToMatch(to, Rewrite(r, to))
  {
    IdentityDecidesIPNetEqual(to.prefix, to.prefix);
  }

  // Any route built as a target is recognised as one: the conversions of the configured
  // identifiers and metric to int and back lose nothing.
  lemma TargetMatchesTo(cs: seq<Route>, to: LRGTo)
    ensures Target(cs, to).Some? ==> ToMatch(to, Target(cs, to).value)
  {
    RewriteMatchesTo(if Best(cs).Some? then Best(cs).value else BLACKHOLE, to);
  }

  // Without a candidate a gateway that asks for a blackhole wants one, which discards packets.
  lemma TargetWithoutCandidate(to: LRGTo)
    ensures Target([], to).Some? <==> to.blackhole
    ensures to.blackhole ==>
              var t := Target([], to).value;
              && t.kind == 6 && t.tos == 0 && t.gw == [] && t.attributes == 0
              && t.dst == Some(to.prefix) && t.table == to.table && t.protocol == to.protocol && t.priority == to.metric
  {
  }

  // The target is the first of the lowest candidates in everything but what the configuration
  // decides: it goes through the same gateway, with the same type and TOS.
  lemma TargetCopiesFirstMinimum(cs: seq<Route>, to: LRGTo, i: nat)
    requires FirstMinimum(cs, i)
    ensures Target(cs, to).Some?
    ensures var t := Target(cs, to).value;
            && t.tos == cs[i].tos && t.kind == cs[i].kind && t.gw == cs[i].gw && t.attributes == cs[i].attributes
            && t.dst == Some(to.prefix)
            && t.protocol == to.protocol && t.priority == to.metric && t.table == to.table
  {
    BestIsFirstMinimum(cs, i);
  }

  // The echo of an installed target changes no candidate and starts no installation, whatever the
  // overlap of the two matchers; and it can never enter the candidate list.
  lemma EchoChangesNothing(cfg: LRG, s: State, echo: Route)
    requires Sound(cfg, s.candidates)
    requires Target(s.candidates, cfg.to).Some? && Equal(echo, Target(s.candidates, cfg.to).value)
    ensures Step(cfg, s, NewNote(echo)) == s.(current := Some(echo))
    ensures forall c <- s.candidates :: !Equal(c, echo)
  {
    var target := Target(s.candidates, cfg.to).value;
    TargetMatchesTo(s.candidates, cfg.to);
    IdDecidesEqual(echo, target);
    IdDecidesEqual(target, echo);
    MatchersRespectEqual(cfg, echo, target);
    forall c <- s.candidates ensures !Equal(c, echo) {
      IdDecidesEqual(c, echo);
      if Id(c) == Id(echo) {
        MatchersRespectEqual(cfg, c, echo);
      }
    }
  }

  // The last-resort route is the rewritten best candidate.
  predicate Tracks(cfg: LRG, s: State) {
    var target := Target(s.candidates, cfg.to);
    target.Some? ==> s.current.Some? && Equal(target.value, s.current.value)
  }

  predicate Matched(cfg: LRG, u: RouteUpdate) {
    (ToMatch(cfg.to, u.route) || FromMatch(cfg.from, u.route)) && !u.kind.OtherUpdate?
  }

  lemma EqualIsReflexive(r: Route)
    ensures Equal(r, r)
  {
    IdDecidesEqual(r, r);
  }

  lemma InstallTracks(cfg: LRG, s: State)
    ensures Tracks(cfg, Install(cfg, s))
  {
    if Target(s.candidates, cfg.to).Some? {
      EqualIsReflexive(Target(s.candidates, cfg.to).value);
    }
  }

  // Every update of a source or of the target, and every EndOfRIB, leaves the gateway tracking,
  // whatever the state was; a StartOfRIB leaves it tracking exactly when no blackhole is wanted
  // or the blackhole is already the last-resort route; no other notification changes anything.
  lemma StepTracks(cfg: LRG, s: State, n: Notification)
    requires Sound(cfg, s.candidates)
    ensures n.EndOfRIB? || (n.Update? && Matched(cfg, n.update)) ==> Tracks(cfg, Step(cfg, s, n))
    ensures n.Update? && !Matched(cfg, n.update) ==> Step(cfg, s, n) == s
    ensures n.StartOfRIB? ==>
              (Tracks(cfg, Step(cfg, s, n)) <==>
               !cfg.to.blackhole || (s.current.Some? && Equal(Rewrite(BLACKHOLE, cfg.to), s.current.value)))
  {
    match n
    case StartOfRIB =>
    case EndOfRIB => InstallTracks(cfg, s);
    case Update(u) =>
      if Matched(cfg, u) {
        UpdateInstalls(cfg, s, u);
      }
  }

  lemma UpdateInstalls(cfg: LRG, s: State, u: RouteUpdate)
    requires Sound(cfg, s.candidates) && Matched(cfg, u)
    ensures Tracks(cfg, Step(cfg, s, Update(u)))
  {
    var r := u.route;
    if ToMatch(cfg.to, r) {
      InstallTracks(cfg, s.(current := if u.kind.NewRoute? then Some(r) else None));
    } else {
      var cs := if u.kind.NewRoute? then Add(s.candidates, r) else Without(s.candidates, r);
      InstallTracks(cfg, s.(candidates := cs));
    }
  }

  // The route believed in before anything is chosen: what the notification showed or deleted.
  function Observed(cfg: LRG, s: State, n: Notification): Option<Route> {
    if DeletesTarget(cfg, n) then None else if ShowsTarget(cfg, n) then Some(n.update.route) else s.current
  }

  // A change is counted, and an installation scheduled, exactly when the gateway ends up with
  // another route than the one seen, which is then the target; nothing cancels an installation,
  // and none is attempted.
  lemma ChoicesAreCountedExactly(cfg: LRG, s: State, n: Notification)
    requires Sound(cfg, s.candidates)
    ensures var t, seen := Step(cfg, s, n), Observed(cfg, s, n);
            && t.changes == s.changes + (if t.current != seen then 1 else 0)
            && (t.tick <==> s.tick || t.current != seen)
            && (t.current != seen ==> t.current.Some? && t.current == Target(t.candidates, cfg.to))
            && t.attempts == s.attempts && t.installed == s.installed
  {
    hide ToMatch, FromMatch, Target, Add, Without, Equal;
    if s.current.Some? {
      EqualIsReflexive(s.current.value);
    }
    if n.Update? {
      EqualIsReflexive(n.update.route);
    }
  }

  // When the best source is replaced by one with another gateway, type or further attribute, that
  // one is copied.
  lemma NewBestIsCopied(cfg: LRG, s: State, r: Route)
    requires Sound(cfg, s.candidates) && Tracks(cfg, s) && Watched(cfg, r)
    requires Best(s.candidates).Some? && SlotOf(Best(s.candidates).value) == SlotOf(r)
    requires var best := Best(s.candidates).value;
             r.kind != best.kind || Address(r.gw) != Address(best.gw) || r.attributes != best.attributes
    ensures var t := Step(cfg, s, NewNote(r));
            && t.tick && t.changes == s.changes + 1 && t.current.Some?
            && t.current.value.kind == r.kind && Address(t.current.value.gw) == Address(r.gw)
            && t.current.value.attributes == r.attributes
  {
    hide ToMatch, FromMatch, Best, Equal, Add, Replaces;
    SoundHasDestinations(cfg, s.candidates);
    HasDestination(cfg, r);
    var best := Best(s.candidates).value;
    AddUpdatesMap(cfg, s.candidates, r, SlotOf(r));
    BestAfterReplacement(cfg, s.candidates, r);
    var chosen := Best(Add(s.candidates, r)).value;
    IdDecidesEqual(Rewrite(best, cfg.to), s.current.value);
    IdDecidesEqual(Rewrite(chosen, cfg.to), s.current.value);
    assert Step(cfg, s, NewNote(r)) == Install(cfg, s.(candidates := Add(s.candidates, r)));
  }

  lemma NoneIsLower(cs: seq<Route>, k: Slot)
    requires Lookup(cs, k).Some?
    ensures Best(cs).Some?
    ensures var best := Best(cs).value; best.tos <= k.tos && (best.tos == k.tos ==> best.priority <= k.priority)
  {
    LookupFinds(cs, k);
    var j :| 0 <= j < |cs| && SlotOf(cs[j]) == k;
    BestIsLowest(cs);
    assert cs[j] in cs;
  }

  lemma BestAfterReplacement(cfg: LRG, cs: seq<Route>, r: Route)
    requires Sound(cfg, cs) && Watched(cfg, r)
    requires Best(cs).Some? && SlotOf(Best(cs).value) == SlotOf(r)
    ensures Best(Add(cs, r)).Some? && Id(Best(Add(cs, r)).value) == Id(r)
  {
    hide ToMatch, FromMatch, Best, Equal, Add;
    SoundHasDestinations(cfg, cs);
    HasDestination(cfg, r);
    var ds := Add(cs, r);
    AddUpdatesMap(cfg, cs, r, SlotOf(r));
    LookupFinds(ds, SlotOf(r));
    var i :| 0 <= i < |ds| && SlotOf(ds[i]) == SlotOf(r) && Lookup(ds, SlotOf(r)) == Some(Id(ds[i]));
    BestIsStrict(cfg, ds, i);
    var m := BestIndex(ds);
    var k := SlotOf(ds[m]);
    AddUpdatesMap(cfg, cs, r, k);
    LookupOfMember(cfg, ds, m);
    if k != SlotOf(r) {
      NoneIsLower(cs, k);
    }
  }

  /* ---- Sequences of notifications ---- */

  function Run(cfg: LRG, s: State, ns: seq<Notification>): (t: State)
    requires Sound(cfg, s.candidates)
    ensures Sound(cfg, t.candidates)
    decreases |ns|
  {
    if ns == [] then s
    else
      var t := Run(cfg, s, ns[..|ns| - 1]);
      StepChangesCandidates(cfg, t, ns[|ns| - 1]);
      AfterKeepsSound(cfg, t.candidates, ns[|ns| - 1]);
      Step(cfg, t, ns[|ns| - 1])
  }

  lemma RunExtends(cfg: LRG, s: State, ns: seq<Notification>, n: Notification)
    requires Sound(cfg, s.candidates)
    ensures Run(cfg, s, ns + [n]) == Step(cfg, Run(cfg, s, ns), n)
  {
    assert (ns + [n])[..|ns|] == ns;
  }

  lemma {:induction false} RunConcat(cfg: LRG, s: State, ns: seq<Notification>, ms: seq<Notification>)
    requires Sound(cfg, s.candidates)
    ensures Run(cfg, s, ns + ms) == Run(cfg, Run(cfg, s, ns), ms)
    decreases |ms|
  {
    hide Step, Sound, After;
    if ms == [] {
      assert ns + ms == ns;
    } else {
      var front, last := ms[..|ms| - 1], ms[|ms| - 1];
      RunConcat(cfg, s, ns, front);
      assert ms == front + [last];
      Regroup(ns, front, [last]);
      RunExtends(cfg, s, ns + front, last);
    }
  }

  // Without a blackhole the gateway tracks after every notification of every run.
  lemma {:induction false} RunTracks(cfg: LRG, s: State, ns: seq<Notification>)
    requires !cfg.to.blackhole && Sound(cfg, s.candidates) && Tracks(cfg, s)
    ensures Tracks(cfg, Run(cfg, s, ns))
    decreases |ns|
  {
    if ns != [] {
      RunTracks(cfg, s, ns[..|ns| - 1]);
      StepTracks(cfg, Run(cfg, s, ns[..|ns| - 1]), ns[|ns| - 1]);
    }
  }

  lemma UpdateKeepsTracking(cfg: LRG, s: State, u: RouteUpdate)
    requires Sound(cfg, s.candidates) && Tracks(cfg, s)
    ensures Tracks(cfg, Step(cfg, s, Update(u)))
  {
    StepTracks(cfg, s, Update(u));
  }

  // With or without a blackhole, a run that ends on a complete scan tracks, from any state at all.
  lemma {:induction false} CompleteScanTracks(cfg: LRG, s: State, ns: seq<Notification>, live: seq<RouteUpdate>)
    requires Sound(cfg, s.candidates)
    ensures Tracks(cfg, Run(cfg, s, ns + [EndOfRIB] + Updates(live)))
    decreases |live|
  {
    if live == [] {
      assert ns + [EndOfRIB] + Updates(live) == ns + [EndOfRIB];
      RunExtends(cfg, s, ns, EndOfRIB);
      StepTracks(cfg, Run(cfg, s, ns), EndOfRIB);
    } else {
      var front, last := live[..|live| - 1], live[|live| - 1];
      CompleteScanTracks(cfg, s, ns, front);
      assert ns + [EndOfRIB] + Updates(live) == (ns + [EndOfRIB] + Updates(front)) + [Update(last)];
      RunExtends(cfg, s, ns + [EndOfRIB] + Updates(front), Update(last));
      UpdateKeepsTracking(cfg, Run(cfg, s, ns + [EndOfRIB] + Updates(front)), last);
    }
  }

  // In every run, every candidate has the prefix, the table and, where one is configured, the
  // protocol and the metric of the "from" block, and none is a target.
  lemma CandidatesAreAsConfigured(cfg: LRG, ns: seq<Notification>, i: nat)
    requires Sound(cfg, INITIAL.candidates) && i < |Run(cfg, INITIAL, ns).candidates|
    ensures var c := Run(cfg, INITIAL, ns).candidates[i];
            && c.dst.Some? && Identify(c.dst.value) == Identify(cfg.from.prefix) && c.table == cfg.from.table
            && (cfg.from.protocol.Some? ==> c.protocol == cfg.from.protocol.value)
            && (cfg.from.metric.Some? ==> c.priority == cfg.from.metric.value)
            && !IsTarget(cfg.to, c)
  {
    hide Run, FromMatch, ToMatch;
    MatchersReadFields(cfg, Run(cfg, INITIAL, ns).candidates[i]);
  }

  // The prefix, table, protocol and metric of the "to" block.
  predicate IsTarget(to: LRGTo, r: Route) {
    && r.dst.Some? && Identify(r.dst.value) == Identify(to.prefix)
    && r.table == to.table && r.protocol == to.protocol && r.priority == to.metric
  }

  // Conversely, every such route that appears becomes the candidate of its slot, and stops being
  // it when it disappears.
  lemma ConfiguredSourceIsTaken(cfg: LRG, s: State, r: Route)
    requires Sound(cfg, s.candidates)
    requires r.dst.Some? && Identify(r.dst.value) == Identify(cfg.from.prefix) && r.table == cfg.from.table
    requires cfg.from.protocol.Some? ==> r.protocol == cfg.from.protocol.value
    requires cfg.from.metric.Some? ==> r.priority == cfg.from.metric.value
    requires !IsTarget(cfg.to, r)
    ensures Lookup(Step(cfg, s, NewNote(r)).candidates, SlotOf(r)) == Some(Id(r))
    ensures Lookup(Step(cfg, s, DelNote(r)).candidates, SlotOf(r)) != Some(Id(r))
  {
    hide Step, Lookup, FromMatch, ToMatch, Id, SlotOf;
    MatchersReadFields(cfg, r);
    UpdateRefinesMap(cfg, s, RouteUpdate(NewRoute, r), SlotOf(r));
    UpdateRefinesMap(cfg, s, RouteUpdate(DelRoute, r), SlotOf(r));
  }

  // And a target that appears or disappears is believed in or given up, unless there is a target
  // to choose, while the candidates stay as they are.
  lemma ConfiguredTargetIsSeen(cfg: LRG, s: State, r: Route)
    requires Sound(cfg, s.candidates) && IsTarget(cfg.to, r)
    ensures HaveDestinations(s.candidates)
    ensures Step(cfg, s, NewNote(r)).candidates == s.candidates && Step(cfg, s, DelNote(r)).candidates == s.candidates
    ensures var target := Target(s.candidates, cfg.to);
            && Step(cfg, s, NewNote(r)).current == (if target.Some? && !Equal(target.value, r) then target else Some(r))
            && Step(cfg, s, DelNote(r)).current == target
  {
    hide FromMatch, ToMatch, Target, Equal;
    MatchersReadFields(cfg, r);
    SoundHasDestinations(cfg, s.candidates);
  }

  /* ---- Last known route ---- */

  predicate DeletesTarget(cfg: LRG, n: Notification) {
    n.Update? && n.update.kind == DelRoute && ToMatch(cfg.to, n.update.route)
  }

  predicate ShowsTarget(cfg: LRG, n: Notification) {
    n.Update? && n.update.kind == NewRoute && ToMatch(cfg.to, n.update.route)
  }

  predicate NoTargetDeletion(cfg: LRG, ns: seq<Notification>) {
    forall n <- ns :: !DeletesTarget(cfg, n)
  }

  // Notification `i` of the run determined the last-resort route: a target was chosen, or seen.
  predicate Determines(cfg: LRG, s: State, ns: seq<Notification>, i: nat)
    requires Sound(cfg, s.candidates) && i < |ns|
  {
    Run(cfg, s, ns[..i + 1]).candidates != [] || ShowsTarget(cfg, ns[i])
  }

  lemma StepRetains(cfg: LRG, s: State, n: Notification)
    requires !cfg.to.blackhole && Sound(cfg, s.candidates) && !DeletesTarget(cfg, n)
    ensures s.current.Some? ==> Step(cfg, s, n).current.Some?
    ensures Step(cfg, s, n).candidates == [] && !ShowsTarget(cfg, n) ==> Step(cfg, s, n).current == s.current
    ensures Step(cfg, s, n).candidates == [] && ShowsTarget(cfg, n) ==> Step(cfg, s, n).current == Some(n.update.route)
  {
  }

  lemma NoCandidateNoTarget(cs: seq<Route>, to: LRGTo)
    requires !to.blackhole
    ensures Target(cs, to).Some? <==> cs != []
  {
    if cs != [] {
      var i := BestIndex(cs);
    }
  }

  lemma {:induction false} OnceKnownAlwaysKnown(cfg: LRG, s: State, ns: seq<Notification>)
    requires !cfg.to.blackhole && Sound(cfg, s.candidates) && NoTargetDeletion(cfg, ns)
    requires s.current.Some?
    ensures Run(cfg, s, ns).current.Some?
    decreases |ns|
  {
    if ns != [] {
      OnceKnownAlwaysKnown(cfg, s, ns[..|ns| - 1]);
      assert ns[|ns| - 1] in ns;
      StepRetains(cfg, Run(cfg, s, ns[..|ns| - 1]), ns[|ns| - 1]);
    }
  }

  lemma TracksMeans(cfg: LRG, s: State)
    requires Tracks(cfg, s)
    ensures Target(s.candidates, cfg.to).Some? ==> s.current.Some? && Equal(Target(s.candidates, cfg.to).value, s.current.value)
  {
  }

  // Over any run in which nobody deletes the target, the last-resort route is what the last
  // determining notification said: the target it chose or, with no candidate, the target it showed.
  lemma {:induction false} LastKnownIsKept(cfg: LRG, s: State, ns: seq<Notification>, j: nat)
    requires !cfg.to.blackhole && Sound(cfg, s.candidates) && Tracks(cfg, s)
    requires NoTargetDeletion(cfg, ns)
    requires j < |ns| && Determines(cfg, s, ns, j)
    requires forall i | j < i < |ns| :: !Determines(cfg, s, ns, i)
    ensures var chosen := Target(Run(cfg, s, ns[..j + 1]).candidates, cfg.to);
            if chosen.Some? then
              Run(cfg, s, ns).current.Some? && Equal(chosen.value, Run(cfg, s, ns).current.value)
            else
              ShowsTarget(cfg, ns[j]) && Run(cfg, s, ns).current == Some(ns[j].update.route)
    decreases |ns|
  {
    hide Step, Target, Equal, ToMatch, FromMatch, Sound, Tracks;
    NoCandidateNoTarget(Run(cfg, s, ns[..j + 1]).candidates, cfg.to);
    var front, last := ns[..|ns| - 1], ns[|ns| - 1];
    assert last in ns;
    if j == |ns| - 1 {
      assert ns[..j + 1] == ns;
      RunTracks(cfg, s, ns);
      TracksMeans(cfg, Run(cfg, s, ns));
      StepRetains(cfg, Run(cfg, s, front), last);
    } else {
      forall i | 0 <= i < |front| ensures Determines(cfg, s, front, i) == Determines(cfg, s, ns, i) {
        assert front[..i + 1] == ns[..i + 1];
      }
      assert front[..j + 1] == ns[..j + 1];
      LastKnownIsKept(cfg, s, front, j);
      assert ns[..|ns| - 1 + 1] == ns;
      assert !Determines(cfg, s, ns, |ns| - 1);
      StepRetains(cfg, Run(cfg, s, front), last);
    }
  }

  // When the last candidate disappears, the last known route is kept exactly when no blackhole
  // was asked for (or it was the blackhole already): the blackhole replaces a known last-resort
  // route, where docs/configuration.rst only promises it in the absence of one.
  lemma BlackholeReplacesLastKnown(cfg: LRG, s: State, r: Route)
    requires Sound(cfg, s.candidates) && s.current.Some?
    requires Watched(cfg, r) && Without(s.candidates, r) == []
    ensures Step(cfg, s, DelNote(r)).current == s.current
            <==> !cfg.to.blackhole || Equal(Rewrite(BLACKHOLE, cfg.to), s.current.value)
  {
    EqualIsReflexive(Rewrite(BLACKHOLE, cfg.to));
  }

  /* ---- Ticks ---- */

  datatype Action = Notify(n: Notification) | TickFires(accepted: bool)

  // One iteration of the gateway's loop; None when it panics on a missing route. A tick that is
  // not pending cannot fire.
  function Act(cfg: LRG, s: State, a: Action): Option<State>
    requires HaveDestinations(s.candidates)
  {
    match a
    case Notify(n) => Some(Step(cfg, s, n))
    case TickFires(accepted) =>
      if !s.tick then Some(s)
      else if s.current.None? then None
      else Some(Tick(s, accepted))
  }

  function Play(cfg: LRG, s: State, acts: seq<Action>): (t: Option<State>)
    requires Sound(cfg, s.candidates)
    ensures t.Some? ==> Sound(cfg, t.value.candidates)
    decreases |acts|
  {
    if acts == [] then Some(s)
    else
      match Play(cfg, s, acts[..|acts| - 1])
      case None => None
      case Some(t) =>
        var a := acts[|acts| - 1];
        if a.Notify? then
          StepChangesCandidates(cfg, t, a.n);
          AfterKeepsSound(cfg, t.candidates, a.n);
          Act(cfg, t, a)
        else Act(cfg, t, a)
  }

  lemma PlayExtends(cfg: LRG, s: State, acts: seq<Action>, a: Action)
    requires Sound(cfg, s.candidates) && Play(cfg, s, acts).Some?
    ensures HaveDestinations(Play(cfg, s, acts).value.candidates)
    ensures Play(cfg, s, acts + [a]) == Act(cfg, Play(cfg, s, acts).value, a)
    ensures Notes(acts + [a]) == Notes(acts) + if a.Notify? then [a.n] else []
  {
    hide Act, Sound;
    assert (acts + [a])[..|acts|] == acts;
    SoundHasDestinations(cfg, Play(cfg, s, acts).value.candidates);
  }

  lemma PlayNotified(cfg: LRG, s: State, acts: seq<Action>, n: Notification)
    requires Sound(cfg, s.candidates) && Play(cfg, s, acts).Some?
    ensures HaveDestinations(Play(cfg, s, acts).value.candidates)
    ensures Play(cfg, s, acts + [Notify(n)]) == Some(Step(cfg, Play(cfg, s, acts).value, n))
    ensures Sound(cfg, Step(cfg, Play(cfg, s, acts).value, n).candidates)
    ensures Notes(acts + [Notify(n)]) == Notes(acts) + [n]
  {
    hide Step, Play, Notes, Sound;
    PlayExtends(cfg, s, acts, Notify(n));
    StepKeepsSound(cfg, Play(cfg, s, acts).value, n);
  }

  function Notes(acts: seq<Action>): seq<Notification> {
    if acts == [] then []
    else
      var rest := Notes(acts[..|acts| - 1]);
      var a := acts[|acts| - 1];
      if a.Notify? then rest + [a.n] else rest
  }

  // Neither the timing of the ticks nor the answers of AddRoute influence the candidates or the
  // last-resort route: both are what the notifications alone produce.
  lemma {:induction false} TicksDoNotDecide(cfg: LRG, s: State, acts: seq<Action>)
    requires Sound(cfg, s.candidates) && Play(cfg, s, acts).Some?
    ensures SameDecisions(Play(cfg, s, acts).value, Run(cfg, s, Notes(acts)))
    decreases |acts|
  {
    if acts != [] {
      var front, a := acts[..|acts| - 1], acts[|acts| - 1];
      TicksDoNotDecide(cfg, s, front);
      if a.Notify? {
        RunExtends(cfg, s, Notes(front), a.n);
        StepIgnoresTicks(cfg, Play(cfg, s, front).value, Run(cfg, s, Notes(front)), a.n);
      }
    }
  }

  predicate SameDecisions(s: State, t: State) {
    s.candidates == t.candidates && s.current == t.current && s.changes == t.changes
  }

  lemma InstallIgnoresTicks(cfg: LRG, s: State, t: State)
    requires SameDecisions(s, t)
    ensures SameDecisions(Install(cfg, s), Install(cfg, t))
  {
  }

  lemma StepIgnoresTicks(cfg: LRG, s: State, t: State, n: Notification)
    requires Sound(cfg, s.candidates) && SameDecisions(s, t)
    ensures SameDecisions(Step(cfg, s, n), Step(cfg, t, n))
  {
    match n
    case StartOfRIB =>
    case EndOfRIB => InstallIgnoresTicks(cfg, s, t);
    case Update(RouteUpdate(kind, r)) =>
      if ToMatch(cfg.to, r) {
        var current := if kind.NewRoute? then Some(r) else None;
        InstallIgnoresTicks(cfg, s.(current := current), t.(current := current));
      } else {
        var cs := After(cfg, s.candidates, n);
        InstallIgnoresTicks(cfg, s.(candidates := cs), t.(candidates := cs));
      }
  }

  // What is handed to AddRoute, and what becomes of it: action `i` of a run attempts an
  // installation if and only if it is a tick that fires while one is pending, and then of the very
  // route that the notifications before it made the gateway believe in.
  lemma AttemptsAreOfBeliefs(cfg: LRG, acts: seq<Action>, i: nat)
    requires i < |acts| && Play(cfg, INITIAL, acts[..i + 1]).Some?
    ensures Play(cfg, INITIAL, acts[..i]).Some?
    ensures var s, t := Play(cfg, INITIAL, acts[..i]).value, Play(cfg, INITIAL, acts[..i + 1]).value;
            var believed := Run(cfg, INITIAL, Notes(acts[..i])).current;
            match acts[i]
            case Notify(_) => t.attempts == s.attempts && t.installed == s.installed && (s.tick ==> t.tick)
            case TickFires(accepted) =>
              if !s.tick then t == s
              else
                && believed.Some? && t.current == believed && t.candidates == s.candidates
                && t.attempts == s.attempts + [believed.value]
                && t.installed == (if accepted then s.installed + [believed.value] else s.installed)
                && t.tick == !accepted
  {
    hide Step;
    assert acts[..i + 1][..i] == acts[..i];
    TicksDoNotDecide(cfg, INITIAL, acts[..i]);
    if acts[i].Notify? {
      ChoicesAreCountedExactly(cfg, Play(cfg, INITIAL, acts[..i]).value, acts[i].n);
    }
  }

  // So, without a blackhole or after a complete scan, of the rewritten best candidate whenever
  // there is a candidate.
  lemma AttemptsAreOfTargets(cfg: LRG, acts: seq<Action>, i: nat, scan: seq<Notification>, live: seq<RouteUpdate>)
    requires i < |acts| && Play(cfg, INITIAL, acts[..i + 1]).Some? && acts[i].TickFires?
    requires Play(cfg, INITIAL, acts[..i]).Some? && Play(cfg, INITIAL, acts[..i]).value.tick
    requires !cfg.to.blackhole || Notes(acts[..i]) == scan + [EndOfRIB] + Updates(live)
    ensures var s, t := Play(cfg, INITIAL, acts[..i]).value, Play(cfg, INITIAL, acts[..i + 1]).value;
            var target := Target(s.candidates, cfg.to);
            target.Some? ==> t.attempts != [] && Equal(target.value, t.attempts[|t.attempts| - 1])
  {
    hide Step, Run, Play, Target, Equal, Notes;
    AttemptsAreOfBeliefs(cfg, acts, i);
    TicksDoNotDecide(cfg, INITIAL, acts[..i]);
    if cfg.to.blackhole {
      CompleteScanTracks(cfg, INITIAL, scan, live);
    } else {
      InitialTracks(cfg);
      RunTracks(cfg, INITIAL, Notes(acts[..i]));
    }
  }

  lemma InitialTracks(cfg: LRG)
    requires !cfg.to.blackhole
    ensures Tracks(cfg, INITIAL)
  {
  }

  // A gateway that has kept up so far keeps up over one more notification.
  lemma FollowOne(cfg: LRG, s: State, processed: seq<Notification>, n: Notification)
    requires Sound(cfg, s.candidates) && SameDecisions(s, Run(cfg, INITIAL, processed))
    ensures Sound(cfg, Step(cfg, s, n).candidates)
    ensures SameDecisions(Step(cfg, s, n), Run(cfg, INITIAL, processed + [n]))
  {
    assert Sound(cfg, INITIAL.candidates);
    hide Step, Run, Sound;
    SoundHasDestinations(cfg, s.candidates);
    StepIgnoresTicks(cfg, s, Run(cfg, INITIAL, processed), n);
    StepChangesCandidates(cfg, s, n);
    AfterKeepsSound(cfg, s.candidates, n);
    RunExtends(cfg, INITIAL, processed, n);
  }

  // An installation is only ever pending, tried or done because a change was recorded, and only
  // for a route the target matcher recognises.
  predicate Accounted(cfg: LRG, s: State) {
    && |s.installed| + (if s.tick then 1 else 0) <= s.changes
    && (s.current.Some? ==> ToMatch(cfg.to, s.current.value))
    && (forall r <- s.attempts :: ToMatch(cfg.to, r))
    && (forall r <- s.installed :: r in s.attempts)
  }

  lemma TargetsAreAsConfigured(cfg: LRG, r: Route)
    ensures ToMatch(cfg.to, r) <==> IsTarget(cfg.to, r)
  {
    MatchersReadFields(cfg, r);
  }

  lemma InstallAccounted(cfg: LRG, s: State)
    requires Accounted(cfg, s)
    ensures Accounted(cfg, Install(cfg, s))
  {
    TargetMatchesTo(s.candidates, cfg.to);
  }

  lemma StepAccounted(cfg: LRG, s: State, n: Notification)
    requires Sound(cfg, s.candidates) && Accounted(cfg, s)
    ensures Accounted(cfg, Step(cfg, s, n))
  {
    match n
    case StartOfRIB =>
    case EndOfRIB => InstallAccounted(cfg, s);
    case Update(RouteUpdate(kind, r)) =>
      if ToMatch(cfg.to, r) {
        InstallAccounted(cfg, s.(current := if kind.NewRoute? then Some(r) else None));
      } else {
        InstallAccounted(cfg, s.(candidates := After(cfg, s.candidates, n)));
      }
  }

  lemma {:induction false} EveryRunIsAccounted(cfg: LRG, acts: seq<Action>)
    requires Play(cfg, INITIAL, acts).Some?
    ensures Accounted(cfg, Play(cfg, INITIAL, acts).value)
    ensures forall r <- Play(cfg, INITIAL, acts).value.attempts :: IsTarget(cfg.to, r)
    decreases |acts|
  {
    hide ToMatch, IsTarget, Step;
    forall r | ToMatch(cfg.to, r) ensures IsTarget(cfg.to, r) {
      TargetsAreAsConfigured(cfg, r);
    }
    if acts != [] {
      var front, a := acts[..|acts| - 1], acts[|acts| - 1];
      EveryRunIsAccounted(cfg, front);
      if a.Notify? {
        StepAccounted(cfg, Play(cfg, INITIAL, front).value, a.n);
      }
    }
  }

  // A pending installation has a route to install.
  predicate Armed(s: State) {
    s.tick ==> s.current.Some?
  }

  // The one step that disarms: the target is deleted while its installation is pending and
  // nothing can take its place.
  predicate Disarms(cfg: LRG, s: State, n: Notification) {
    s.tick && DeletesTarget(cfg, n) && Target(s.candidates, cfg.to).None?
  }

  lemma StepDisarmsExactly(cfg: LRG, s: State, n: Notification)
    requires Sound(cfg, s.candidates) && Armed(s)
    ensures Armed(Step(cfg, s, n)) <==> !Disarms(cfg, s, n)
  {
  }

  predicate NeverDisarmed(cfg: LRG, acts: seq<Action>) {
    forall i | 0 <= i < |acts| ::
      acts[i].Notify? && Play(cfg, INITIAL, acts[..i]).Some? ==>
        !Disarms(cfg, Play(cfg, INITIAL, acts[..i]).value, acts[i].n)
  }

  lemma {:induction false} ArmedRunsDoNotPanic(cfg: LRG, acts: seq<Action>)
    requires NeverDisarmed(cfg, acts)
    ensures Play(cfg, INITIAL, acts).Some? && Armed(Play(cfg, INITIAL, acts).value)
    decreases |acts|
  {
    if acts != [] {
      var front, a := acts[..|acts| - 1], acts[|acts| - 1];
      forall i | 0 <= i < |front| ensures front[..i] == acts[..i] {
      }
      assert NeverDisarmed(cfg, front);
      ArmedRunsDoNotPanic(cfg, front);
      if a.Notify? {
        StepDisarmsExactly(cfg, Play(cfg, INITIAL, front).value, a.n);
      }
    }
  }

  // A NEWROUTE of a target or of a source gives the gateway a route again.
  predicate Rearms(cfg: LRG, n: Notification) {
    n.Update? && n.update.kind == NewRoute && (ToMatch(cfg.to, n.update.route) || FromMatch(cfg.from, n.update.route))
  }

  predicate Unarmed(s: State) {
    s.tick && s.current.None?
  }

  // A gateway without a route has none to choose.
  lemma StepUnarmsExactly(cfg: LRG, s: State, n: Notification)
    requires Sound(cfg, s.candidates)
    requires Unarmed(s) ==> Target(s.candidates, cfg.to).None?
    ensures Unarmed(Step(cfg, s, n)) <==> Disarms(cfg, s, n) || (Unarmed(s) && !Rearms(cfg, n))
    ensures Unarmed(Step(cfg, s, n)) ==> Target(Step(cfg, s, n).candidates, cfg.to).None?
  {
    hide ToMatch, FromMatch, Best, Rewrite, Equal, Sound;
    SoundHasDestinations(cfg, s.candidates);
    StepChangesCandidates(cfg, s, n);
    NoneHasNoBest(s.candidates);
    NoneHasNoBest(After(cfg, s.candidates, n));
    if n.Update? && Watched(cfg, n.update.route) {
      AddIsNotEmpty(cfg, s.candidates, n.update.route);
      assert s.candidates == [] ==> Without(s.candidates, n.update.route) == [];
    }
  }

  lemma NoneHasNoBest(cs: seq<Route>)
    ensures cs == [] <==> Best(cs).None?
  {
    if cs != [] {
      var i := BestIndex(cs);
    }
  }

  lemma AddIsNotEmpty(cfg: LRG, cs: seq<Route>, r: Route)
    requires HaveDestinations(cs) && Watched(cfg, r)
    ensures Add(cs, r) != []
  {
  }

  // Some action disarmed the gateway, and nothing since gave it a route again.
  predicate LeftDisarmed(cfg: LRG, acts: seq<Action>) {
    exists j | 0 <= j < |acts| ::
      && DisarmedAt(cfg, acts, j)
      && forall m | j < m < |acts| :: acts[m].Notify? ==> !Rearms(cfg, acts[m].n)
  }

  predicate DisarmedAt(cfg: LRG, acts: seq<Action>, j: nat)
    requires j < |acts|
  {
    && acts[j].Notify? && Play(cfg, INITIAL, acts[..j]).Some?
    && Disarms(cfg, Play(cfg, INITIAL, acts[..j]).value, acts[j].n)
  }

  lemma LeftDisarmedExtends(cfg: LRG, front: seq<Action>, a: Action)
    ensures var acts := front + [a];
            LeftDisarmed(cfg, acts) <==>
            DisarmedAt(cfg, acts, |front|) || (LeftDisarmed(cfg, front) && (a.Notify? ==> !Rearms(cfg, a.n)))
  {
    hide Play, Disarms, Rearms;
    var acts := front + [a];
    forall j | 0 <= j < |front| ensures DisarmedAt(cfg, acts, j) == DisarmedAt(cfg, front, j) {
      assert acts[..j] == front[..j];
    }
    if LeftDisarmed(cfg, front) && (a.Notify? ==> !Rearms(cfg, a.n)) {
      var j :| 0 <= j < |front| && DisarmedAt(cfg, front, j) && forall m | j < m < |front| :: front[m].Notify? ==> !Rearms(cfg, front[m].n);
      assert forall m | j < m < |acts| :: acts[m] == if m < |front| then front[m] else a;
    }
    if LeftDisarmed(cfg, acts) && !DisarmedAt(cfg, acts, |front|) {
      var j :| 0 <= j < |acts| && DisarmedAt(cfg, acts, j) && forall m | j < m < |acts| :: acts[m].Notify? ==> !Rearms(cfg, acts[m].n);
      assert forall m | j < m < |front| :: front[m] == acts[m];
      assert acts[|front|] == a;
    }
  }

  lemma {:induction false} UnarmedExactly(cfg: LRG, acts: seq<Action>)
    requires Play(cfg, INITIAL, acts).Some?
    ensures var s := Play(cfg, INITIAL, acts).value;
            && (Unarmed(s) <==> LeftDisarmed(cfg, acts))
            && (Unarmed(s) ==> Target(s.candidates, cfg.to).None?)
    decreases |acts|
  {
    hide Step, Disarms, Rearms, Target;
    if acts != [] {
      var front, a := acts[..|acts| - 1], acts[|acts| - 1];
      assert acts == front + [a];
      UnarmedExactly(cfg, front);
      LeftDisarmedExtends(cfg, front, a);
      assert acts[..|front|] == front;
      var s := Play(cfg, INITIAL, front).value;
      if a.Notify? {
        StepUnarmsExactly(cfg, s, a.n);
      }
    }
  }

  // Exactly which runs panic: those in which a tick fires after a step that disarmed the gateway,
  // with no NEWROUTE of a target or a source in between.
  lemma {:induction false} RunPanicsExactly(cfg: LRG, acts: seq<Action>)
    ensures Play(cfg, INITIAL, acts).None? <==>
            exists i | 0 <= i < |acts| :: acts[i].TickFires? && LeftDisarmed(cfg, acts[..i])
    decreases |acts|
  {
    hide Step, LeftDisarmed;
    if acts != [] {
      var front, a := acts[..|acts| - 1], acts[|acts| - 1];
      RunPanicsExactly(cfg, front);
      assert forall i | 0 <= i < |front| :: front[..i] == acts[..i];
      if Play(cfg, INITIAL, front).Some? {
        UnarmedExactly(cfg, front);
      }
    }
  }

  // A history of the kernel after which a gateway without a blackhole that has just started
  // panics: a source and its copy are there, the source goes, then the copy, and the installation
  // scheduled for the source is still pending.
  function Vanishing(source: Route, copy: Route): Log {
    [RouteUpdate(NewRoute, source), RouteUpdate(NewRoute, copy), RouteUpdate(DelRoute, source), RouteUpdate(DelRoute, copy)]
  }

  lemma VanishingIsWellFormed(source: Route, copy: Route)
    requires SlotOf(source) != SlotOf(copy)
    ensures WellFormed(Vanishing(source, copy))
  {
    hide SlotOf, Equal;
    var log := Vanishing(source, copy);
    assert log[..0] == [];
    RibStep(log, 0);
    RibStep(log, 1);
    RibStep(log, 2);
    EqualIsReflexive(source);
    EqualIsReflexive(copy);
  }

  // The gateway once it has learned of the source and of its copy, and after each deletion.
  lemma SourceAndCopy(cfg: LRG, source: Route)
    requires !cfg.to.blackhole && Watched(cfg, source)
    ensures var copy := Rewrite(source, cfg.to);
            var s := Step(cfg, Step(cfg, INITIAL, NewNote(source)), NewNote(copy));
            s.candidates == [source] && s.tick && s.current == Some(copy)
  {
    hide ToMatch, FromMatch, Equal;
    RewriteMatchesTo(source, cfg.to);
    var copy := Rewrite(source, cfg.to);
    EqualIsReflexive(copy);
    BestOfOne(source);
  }

  lemma BestOfOne(r: Route)
    ensures Best([r]) == Some(r) && Without([r], r) == []
  {
    assert [r][..0] == [];
    EqualIsReflexive(r);
  }

  lemma SourceGoes(cfg: LRG, s: State, source: Route)
    requires !cfg.to.blackhole && Watched(cfg, source) && s.candidates == [source]
    ensures Step(cfg, s, DelNote(source)) == s.(candidates := [])
  {
    hide ToMatch, FromMatch, Equal;
    BestOfOne(source);
  }

  lemma {:induction false} PlayNotes(cfg: LRG, s: State, ns: seq<Notification>)
    requires Sound(cfg, s.candidates)
    ensures Play(cfg, s, Notifying(ns)) == Some(Run(cfg, s, ns))
    decreases |ns|
  {
    hide Step, Sound;
    if ns != [] {
      PlayNotes(cfg, s, ns[..|ns| - 1]);
      assert Notifying(ns)[..|ns| - 1] == Notifying(ns[..|ns| - 1]);
    }
  }

  function Notifying(ns: seq<Notification>): (acts: seq<Action>)
    ensures |acts| == |ns| && forall i | 0 <= i < |ns| :: acts[i] == Notify(ns[i])
  {
    seq(|ns|, i requires 0 <= i < |ns| => Notify(ns[i]))
  }

  lemma RunOfFour(cfg: LRG, s: State, a: Notification, b: Notification, c: Notification, d: Notification)
    requires Sound(cfg, s.candidates)
    ensures Run(cfg, s, [a, b, c, d]) ==
            Step(cfg, Run(cfg, s, [a, b, c]), d)
    ensures Run(cfg, s, [a, b, c]) == Step(cfg, Run(cfg, s, [a, b]), c)
    ensures Run(cfg, s, [a, b]) == Step(cfg, Run(cfg, s, [a]), b)
    ensures Run(cfg, s, [a]) == Step(cfg, s, a)
  {
    hide Step, Sound;
    assert [a, b, c, d] == [a, b, c] + [d] && [a, b, c] == [a, b] + [c] && [a, b] == [a] + [b] && [a] == [] + [a];
    RunExtends(cfg, s, [a, b, c], d);
    RunExtends(cfg, s, [a, b], c);
    RunExtends(cfg, s, [a], b);
    RunExtends(cfg, s, [], a);
  }

  // Such runs come from histories the kernel can have.
  lemma DisarmedRunPanics(cfg: LRG, source: Route)
    requires !cfg.to.blackhole && Watched(cfg, source) && SlotOf(source) != SlotOf(Rewrite(source, cfg.to))
    ensures var log := Vanishing(source, Rewrite(source, cfg.to));
            WellFormed(log) && Play(cfg, INITIAL, Notifying(Updates(log)) + [TickFires(true)]).None?
  {
    hide Step, ToMatch, FromMatch, Sound, SlotOf, WellFormed, Rewrite, Play, Run;
    var copy := Rewrite(source, cfg.to);
    VanishingIsWellFormed(source, copy);
    StartIsSound(cfg);
    var ns := Updates(Vanishing(source, copy));
    assert ns == [NewNote(source), NewNote(copy), DelNote(source), DelNote(copy)];
    RunOfFour(cfg, INITIAL, NewNote(source), NewNote(copy), DelNote(source), DelNote(copy));
    SourceAndCopy(cfg, source);
    SourceGoes(cfg, Run(cfg, INITIAL, [NewNote(source), NewNote(copy)]), source);
    CopyGoes(cfg, Run(cfg, INITIAL, [NewNote(source), NewNote(copy), DelNote(source)]), copy, source);
    PlayNotes(cfg, INITIAL, ns);
    TickPanics(cfg, INITIAL, Notifying(ns));
  }

  lemma StartIsSound(cfg: LRG)
    ensures Sound(cfg, INITIAL.candidates)
  {
  }

  lemma CopyGoes(cfg: LRG, s: State, copy: Route, source: Route)
    requires !cfg.to.blackhole && s.candidates == [] && s.tick && copy == Rewrite(source, cfg.to)
    ensures Unarmed(Step(cfg, s, DelNote(copy)))
  {
    hide ToMatch, FromMatch, Equal;
    RewriteMatchesTo(source, cfg.to);
    NoneHasNoBest(s.candidates);
  }

  lemma TickPanics(cfg: LRG, s: State, acts: seq<Action>)
    requires Sound(cfg, s.candidates) && Play(cfg, s, acts).Some? && Unarmed(Play(cfg, s, acts).value)
    ensures Play(cfg, s, acts + [TickFires(true)]).None?
  {
    assert (acts + [TickFires(true)])[..|acts|] == acts;
  }
}

/**
 The feedback loop: a gateway installs its target, the kernel echoes the installed route, and the
 echo comes back as a notification behind whatever was already queued. Here every change of the
 kernel is queued, which is what a live subscription does; WholeSystem.dfy puts the synchroniser,
 its rescans and its losses in between.
 */
module ClosedLoop {
  import opened Options
  import opened Routes
  import opened Configuration
  import opened GatewaySpec
  import opened Candidates
  import opened GatewayRuns
  import opened KernelLog

  // The gateway, the notifications between the kernel and it, and the kernel's routes.
  datatype Loop = Loop(gw: State, queue: seq<Notification>, kernel: Rib)

  function Deliver(cfg: LRG, l: Loop): Loop
    requires Sound(cfg, l.gw.candidates) && l.queue != []
  {
    l.(gw := Step(cfg, l.gw, l.queue[0]), queue := l.queue[1..])
  }

  // AddRoute succeeds: the kernel replaces the slot's route and announces the new one.
  function Installs(l: Loop): Loop
    requires l.gw.tick && l.gw.current.Some?
  {
    var r := Handed(l.gw);
    l.(gw := Tick(l.gw, true), queue := l.queue + [NewNote(r)], kernel := Apply(l.kernel, RouteUpdate(NewRoute, r)))
  }

  // AddRoute fails: the tick stays pending.
  function Fails(l: Loop): Loop
    requires l.gw.tick && l.gw.current.Some?
  {
    l.(gw := Tick(l.gw, false))
  }

  // Anything else that reaches the gateway: every update is a change of the kernel.
  function Outside(l: Loop, n: Notification): Loop {
    l.(queue := l.queue + [n], kernel := if n.Update? then Apply(l.kernel, n.update) else l.kernel)
  }

  /* ---- What the gateway knows of the kernel ---- */

  function HeldAt(kernel: Rib, k: Slot): Option<RouteId> {
    if k in kernel then Some(Id(kernel[k])) else None
  }

  // The target the kernel holds at a slot, if it is one.
  function CopyAt(cfg: LRG, kernel: Rib, k: Slot): Option<RouteId> {
    if k in kernel && ToMatch(cfg.to, kernel[k]) then Some(Id(kernel[k])) else None
  }

  lemma HoldsATarget(cfg: LRG, kernel: Rib, c: Route)
    requires ToMatch(cfg.to, c)
    ensures HeldAt(kernel, SlotOf(c)) == Some(Id(c)) <==> CopyAt(cfg, kernel, SlotOf(c)) == Some(Id(c))
  {
    if SlotOf(c) in kernel && Id(kernel[SlotOf(c)]) == Id(c) {
      MatchersRespectEqual(cfg, kernel[SlotOf(c)], c);
    }
  }

  // What a notification says the slot holds, when it is about a target at that slot.
  function Says(cfg: LRG, n: Notification, k: Slot): Option<Option<RouteId>> {
    if n.Update? && ToMatch(cfg.to, n.update.route) && SlotOf(n.update.route) == k && !n.update.kind.OtherUpdate?
    then Some(if n.update.kind.NewRoute? then Some(Id(n.update.route)) else None)
    else None
  }

  function LastSays(cfg: LRG, q: seq<Notification>, k: Slot): Option<Option<RouteId>> {
    if q == [] then None
    else
      var later := LastSays(cfg, q[1..], k);
      if later.Some? then later else Says(cfg, q[0], k)
  }

  // The gateway thinks the slot holds a route of its own, with no installation pending.
  predicate Believes(s: State, k: Slot) {
    !s.tick && s.current.Some? && SlotOf(s.current.value) == k
  }

  // The last notification on its way about a slot tells which target the kernel holds there; when
  // there is none, and no installation is pending, the kernel holds the route the gateway believes in.
  predicate Informed(cfg: LRG, l: Loop, k: Slot) {
    var said := LastSays(cfg, l.queue, k);
    && (said.Some? ==> CopyAt(cfg, l.kernel, k) == said.value)
    && (said.None? && Believes(l.gw, k) ==> CopyAt(cfg, l.kernel, k) == Some(Id(l.gw.current.value)))
  }

  lemma {:induction false} LastSaysAppend(cfg: LRG, q: seq<Notification>, n: Notification, k: Slot)
    ensures LastSays(cfg, q + [n], k) == if Says(cfg, n, k).Some? then Says(cfg, n, k) else LastSays(cfg, q, k)
  {
    if q == [] {
      assert q + [n] == [n] && [n][1..] == [];
    } else {
      assert (q + [n])[1..] == q[1..] + [n];
      LastSaysAppend(cfg, q[1..], n, k);
    }
  }

  predicate Healthy(cfg: LRG, s: State) {
    Sound(cfg, s.candidates) && (s.current.Some? ==> ToMatch(cfg.to, s.current.value))
  }

  // After a step with no installation pending, the notification said that the kernel holds the
  // last-resort route, or it said nothing about it and the last-resort route is the old one.
  lemma StepAndSlot(cfg: LRG, s: State, n: Notification)
    requires Healthy(cfg, s)
    ensures var t := Step(cfg, s, n);
            t.current.Some? && !t.tick ==>
              var said := Says(cfg, n, SlotOf(t.current.value));
              said == Some(Some(Id(t.current.value))) || (said.None? && t.current == s.current && !s.tick)
  {
    hide ToMatch, FromMatch, Target, Equal, Add, Without, Sound, SlotOf, Id;
  }

  lemma InstallKeepsMatch(cfg: LRG, s: State)
    requires s.current.Some? ==> ToMatch(cfg.to, s.current.value)
    ensures var t := Install(cfg, s); t.current.Some? ==> ToMatch(cfg.to, t.current.value)
  {
    hide ToMatch, Target, Equal;
    TargetMatchesTo(s.candidates, cfg.to);
  }

  lemma StepKeepsMatch(cfg: LRG, s: State, n: Notification)
    requires Sound(cfg, s.candidates)
    requires s.current.Some? ==> ToMatch(cfg.to, s.current.value)
    ensures var t := Step(cfg, s, n); t.current.Some? ==> ToMatch(cfg.to, t.current.value)
  {
    hide ToMatch, Install;
    match n
    case StartOfRIB =>
    case EndOfRIB => InstallKeepsMatch(cfg, s);
    case Update(RouteUpdate(kind, r)) =>
      if ToMatch(cfg.to, r) {
        InstallKeepsMatch(cfg, s.(current := if kind.NewRoute? then Some(r) else None));
      } else {
        InstallKeepsMatch(cfg, s.(candidates := After(cfg, s.candidates, n)));
      }
  }

  lemma StepKeepsHealthy(cfg: LRG, s: State, n: Notification)
    requires Healthy(cfg, s)
    ensures Healthy(cfg, Step(cfg, s, n))
  {
    hide Step, After, ToMatch, Sound;
    SoundHasDestinations(cfg, s.candidates);
    StepChangesCandidates(cfg, s, n);
    AfterKeepsSound(cfg, s.candidates, n);
    StepKeepsMatch(cfg, s, n);
  }

  lemma DeliverKeepsInformed(cfg: LRG, l: Loop, k: Slot)
    requires Healthy(cfg, l.gw) && l.queue != [] && Informed(cfg, l, k)
    ensures Informed(cfg, Deliver(cfg, l), k)
  {
    hide Step, Sound, ToMatch, SlotOf, Id, CopyAt;
    StepAndSlot(cfg, l.gw, l.queue[0]);
  }

  lemma InstallsKeepsInformed(cfg: LRG, l: Loop, k: Slot)
    requires Healthy(cfg, l.gw) && l.gw.tick && l.gw.current.Some? && Informed(cfg, l, k)
    ensures Informed(cfg, Installs(l), k)
  {
    hide Sound, ToMatch, SlotOf, Id;
    LastSaysAppend(cfg, l.queue, NewNote(l.gw.current.value), k);
  }

  lemma FailsKeepsInformed(cfg: LRG, l: Loop, k: Slot)
    requires Healthy(cfg, l.gw) && l.gw.tick && l.gw.current.Some? && Informed(cfg, l, k)
    ensures Healthy(cfg, Fails(l).gw) && Informed(cfg, Fails(l), k)
  {
  }

  // A route that is no target takes the slot of one that the gateway counts on.
  predicate Usurps(cfg: LRG, l: Loop, n: Notification, k: Slot) {
    && n.Update? && n.update.kind == NewRoute && !ToMatch(cfg.to, n.update.route) && SlotOf(n.update.route) == k
    && CopyAt(cfg, l.kernel, k).Some?
    && (LastSays(cfg, l.queue, k).Some? || Believes(l.gw, k))
  }

  predicate Possible(l: Loop, n: Notification) {
    n.Update? ==> Legal(l.kernel, n.update)
  }

  // Of all that can arrive, exactly this leaves the gateway misinformed: it takes no notice of a
  // route that is not its target, whichever slot that occupies.
  lemma ArrivalKeepsInformedExactly(cfg: LRG, l: Loop, n: Notification, k: Slot)
    requires Informed(cfg, l, k) && Possible(l, n)
    ensures Informed(cfg, Outside(l, n), k) <==> !Usurps(cfg, l, n, k)
  {
    hide ToMatch, SlotOf, Id, Equal, Believes;
    LastSaysAppend(cfg, l.queue, n, k);
    if n.Update? && n.update.kind == DelRoute {
      var held := l.kernel[SlotOf(n.update.route)];
      IdDecidesEqual(held, n.update.route);
      MatchersRespectEqual(cfg, held, n.update.route);
    }
  }

  // So a copy at rest whose slot is taken by a route the gateway does not watch stays lost: the
  // gateway reads the update and neither changes its mind nor installs anything.
  lemma UsurpedCopyStaysLost(cfg: LRG, l: Loop, alien: Route)
    requires Healthy(cfg, l.gw) && l.queue == [] && Believes(l.gw, SlotOf(alien))
    requires !ToMatch(cfg.to, alien) && !FromMatch(cfg.from, alien)
    ensures var m := Outside(l, NewNote(alien));
            && Deliver(cfg, m) == l.(kernel := l.kernel[SlotOf(alien) := alien])
            && !Informed(cfg, Deliver(cfg, m), SlotOf(alien))
            && HeldAt(Deliver(cfg, m).kernel, SlotOf(alien)) != Some(Id(l.gw.current.value))
  {
    hide Sound, SlotOf, Id;
    var m := Outside(l, NewNote(alien));
    assert [NewNote(alien)][1..] == [];
    HoldsATarget(cfg, m.kernel, l.gw.current.value);
  }

  // The gateway only ever replaces what its new copy's slot holds. When the TOS of the best
  // candidate changes, the copy with the former TOS stays in the kernel beside the new one.
  lemma CopyWithFormerTosStays(cfg: LRG, l: Loop, former: Route)
    requires Healthy(cfg, l.gw) && l.gw.tick && l.gw.current.Some? && ToMatch(cfg.to, former)
    requires HeldAt(l.kernel, SlotOf(former)) == Some(Id(former))
    ensures HeldAt(Installs(l).kernel, SlotOf(l.gw.current.value)) == Some(Id(l.gw.current.value))
    ensures Id(former) != Id(l.gw.current.value) ==>
              (HeldAt(Installs(l).kernel, SlotOf(former)) == Some(Id(former)) <==> former.tos != l.gw.current.value.tos)
  {
    TargetsDifferByTos(cfg, former, l.gw.current.value);
  }

  /* ---- Runs of the loop, open to the outside ---- */

  datatype Move = Delivers | Succeeds | Refuses | Arrives(n: Notification)

  predicate CanMove(cfg: LRG, l: Loop, m: Move) {
    match m
    case Delivers => Sound(cfg, l.gw.candidates) && l.queue != []
    case Arrives(n) => Possible(l, n)
    case _ => l.gw.tick && l.gw.current.Some?
  }

  function AfterMove(cfg: LRG, l: Loop, m: Move): Loop
    requires CanMove(cfg, l, m)
  {
    match m
    case Delivers => Deliver(cfg, l)
    case Succeeds => Installs(l)
    case Refuses => Fails(l)
    case Arrives(n) => Outside(l, n)
  }

  predicate IsLoopRun(cfg: LRG, ls: seq<Loop>, ms: seq<Move>) {
    && |ls| == |ms| + 1
    && ls[0].gw == GatewaySpec.INITIAL && ls[0].queue == []
    && forall i | 0 <= i < |ms| :: CanMove(cfg, ls[i], ms[i]) && ls[i + 1] == AfterMove(cfg, ls[i], ms[i])
  }

  predicate UsurpedAt(cfg: LRG, l: Loop, m: Move, k: Slot) {
    m.Arrives? && Usurps(cfg, l, m.n, k)
  }

  lemma MoveKeepsInformedExactly(cfg: LRG, l: Loop, m: Move, k: Slot)
    requires CanMove(cfg, l, m) && Healthy(cfg, l.gw) && Informed(cfg, l, k)
    ensures Informed(cfg, AfterMove(cfg, l, m), k) <==> !UsurpedAt(cfg, l, m, k)
  {
    hide Step, Sound, ToMatch, Informed, Usurps;
    match m
    case Delivers => DeliverKeepsInformed(cfg, l, k);
    case Succeeds => InstallsKeepsInformed(cfg, l, k);
    case Refuses => FailsKeepsInformed(cfg, l, k);
    case Arrives(n) => ArrivalKeepsInformedExactly(cfg, l, n, k);
  }

  lemma MoveKeepsHealthy(cfg: LRG, l: Loop, m: Move)
    requires CanMove(cfg, l, m) && Healthy(cfg, l.gw)
    ensures Healthy(cfg, AfterMove(cfg, l, m).gw)
  {
    hide Step, Sound, ToMatch;
    if m == Delivers {
      StepKeepsHealthy(cfg, l.gw, l.queue[0]);
    }
  }

  lemma {:induction false} LoopRunsAreHealthy(cfg: LRG, ls: seq<Loop>, ms: seq<Move>, i: nat)
    requires IsLoopRun(cfg, ls, ms) && i < |ls|
    ensures Healthy(cfg, ls[i].gw)
  {
    hide CanMove, AfterMove;
    if i > 0 {
      LoopRunsAreHealthy(cfg, ls, ms, i - 1);
      MoveKeepsHealthy(cfg, ls[i - 1], ms[i - 1]);
    }
  }

  // In every run, up to any point: the gateway has been informed of its slot throughout if and
  // only if no arrival usurped it.
  lemma {:induction false} LoopRunsAreInformedExactly(cfg: LRG, ls: seq<Loop>, ms: seq<Move>, i: nat, k: Slot)
    requires IsLoopRun(cfg, ls, ms) && i < |ls|
    ensures (forall j | 0 <= j <= i :: Informed(cfg, ls[j], k)) <==>
            (forall j | 0 <= j < i :: !UsurpedAt(cfg, ls[j], ms[j], k))
  {
    hide Healthy, Informed, CanMove, AfterMove, UsurpedAt;
    if i == 0 {
      StartIsInformed(cfg, ls[0], k);
    } else {
      LoopRunsAreInformedExactly(cfg, ls, ms, i - 1, k);
      LoopRunsAreHealthy(cfg, ls, ms, i - 1);
      if Informed(cfg, ls[i - 1], k) {
        MoveKeepsInformedExactly(cfg, ls[i - 1], ms[i - 1], k);
      }
      assert (forall j | 0 <= j <= i :: Informed(cfg, ls[j], k)) <==>
             (forall j | 0 <= j <= i - 1 :: Informed(cfg, ls[j], k)) && Informed(cfg, ls[i], k);
      assert (forall j | 0 <= j < i :: !UsurpedAt(cfg, ls[j], ms[j], k)) <==>
             (forall j | 0 <= j < i - 1 :: !UsurpedAt(cfg, ls[j], ms[j], k)) && !UsurpedAt(cfg, ls[i - 1], ms[i - 1], k);
    }
  }

  lemma StartIsInformed(cfg: LRG, l: Loop, k: Slot)
    requires l.gw == GatewaySpec.INITIAL && l.queue == []
    ensures Informed(cfg, l, k)
  {
  }

  /* ---- Convergence ---- */

  // The loop is at rest, the kernel holds what the gateway believes in, and that is the goal if
  // there is one.
  predicate Settled(l: Loop, goal: Option<Route>) {
    && l.queue == [] && !l.gw.tick
    && (l.gw.current.Some? ==> HeldAt(l.kernel, SlotOf(l.gw.current.value)) == Some(Id(l.gw.current.value)))
    && (goal.Some? ==> l.gw.current.Some? && Id(l.gw.current.value) == Id(goal.value))
  }

  // AddRoute refuses a number of times in a row.
  function AfterRefusals(s: State, times: nat): State {
    if times == 0 then s
    else
      var t := AfterRefusals(s, times - 1);
      if t.tick && t.current.Some? then Tick(t, false) else t
  }

  function Retried(l: Loop, times: nat): Loop {
    l.(gw := AfterRefusals(l.gw, times))
  }

  // However often AddRoute refuses, and whichever of a delivery and an accepted installation comes
  // next, the loop settles after finitely many of these, and no tick ever finds the gateway
  // without a route.
  least predicate Settles(cfg: LRG, l: Loop, goal: Option<Route>) {
    || Settled(l, goal)
    || (&& (l.queue != [] || l.gw.tick)
        && (l.gw.tick ==> l.gw.current.Some?)
        && (forall times: nat :: l.queue != [] ==> CanDeliver(cfg, Retried(l, times)) && Settles(cfg, Deliver(cfg, Retried(l, times)), goal))
        && (forall times: nat :: l.gw.tick ==> CanInstall(Retried(l, times)) && Settles(cfg, Installs(Retried(l, times)), goal)))
  }

  predicate CanDeliver(cfg: LRG, l: Loop) {
    Sound(cfg, l.gw.candidates) && l.queue != []
  }

  predicate CanInstall(l: Loop) {
    l.gw.tick && l.gw.current.Some?
  }

  // No queued notification disarms the gateway before its tick fires.
  predicate Safe(cfg: LRG, s: State, q: seq<Notification>)
    requires Sound(cfg, s.candidates)
    decreases |q|
  {
    q == [] ||
    (&& !Disarms(cfg, s, q[0])
     && (StepKeepsSound(cfg, s, q[0]); Safe(cfg, Step(cfg, s, q[0]), q[1..])))
  }

  // With the queue processed the gateway believes in its target, which is the goal; without a
  // target there is no goal but to agree with the kernel.
  predicate Heads(cfg: LRG, l: Loop, goal: Option<Route>)
    requires Sound(cfg, l.gw.candidates)
  {
    var end := Run(cfg, l.gw, l.queue);
    var target := Target(end.candidates, cfg.to);
    && Tracks(cfg, end) && (goal.Some? <==> target.Some?)
    && (goal.Some? ==> Id(target.value) == Id(goal.value))
  }

  // The gateway is informed of the goal's slot, or, without a goal, of every slot it may end on.
  ghost predicate Aware(cfg: LRG, l: Loop, goal: Option<Route>) {
    forall k :: (goal.Some? ==> k == SlotOf(goal.value)) ==> Informed(cfg, l, k)
  }

  ghost predicate Converging(cfg: LRG, l: Loop, goal: Option<Route>) {
    Healthy(cfg, l.gw) && Aware(cfg, l, goal) && Heads(cfg, l, goal)
  }

  predicate Careful(cfg: LRG, l: Loop)
    requires Sound(cfg, l.gw.candidates)
  {
    Armed(l.gw) && Safe(cfg, l.gw, l.queue)
  }

  lemma RunFront(cfg: LRG, s: State, q: seq<Notification>)
    requires Sound(cfg, s.candidates) && q != []
    ensures Sound(cfg, Step(cfg, s, q[0]).candidates)
    ensures Run(cfg, s, q) == Run(cfg, Step(cfg, s, q[0]), q[1..])
  {
    hide Step, Sound, After;
    StepKeepsSound(cfg, s, q[0]);
    assert q == [q[0]] + q[1..] && [q[0]] == [] + [q[0]];
    RunConcat(cfg, s, [q[0]], q[1..]);
    RunExtends(cfg, s, [], q[0]);
    assert Run(cfg, s, []) == s;
  }

  lemma {:induction false} RunIgnoresTicks(cfg: LRG, s: State, t: State, q: seq<Notification>)
    requires Sound(cfg, s.candidates) && SameDecisions(s, t)
    ensures SameDecisions(Run(cfg, s, q), Run(cfg, t, q))
    decreases |q|
  {
    hide Step, Sound;
    if q != [] {
      RunIgnoresTicks(cfg, s, t, q[..|q| - 1]);
      StepIgnoresTicks(cfg, Run(cfg, s, q[..|q| - 1]), Run(cfg, t, q[..|q| - 1]), q[|q| - 1]);
    }
  }

  // With the same decisions, a state with no installation pending is as safe as one with.
  lemma {:induction false} SafeWithoutTick(cfg: LRG, s: State, t: State, q: seq<Notification>)
    requires Sound(cfg, s.candidates) && Safe(cfg, s, q)
    requires SameDecisions(s, t) && (t.tick ==> s.tick)
    ensures Safe(cfg, t, q)
    decreases |q|
  {
    hide Step, Sound, Target, DeletesTarget;
    if q != [] {
      StepKeepsSound(cfg, s, q[0]);
      StepIgnoresTicks(cfg, s, t, q[0]);
      StepKeepsTickOrder(cfg, s, t, q[0]);
      SafeWithoutTick(cfg, Step(cfg, s, q[0]), Step(cfg, t, q[0]), q[1..]);
    }
  }

  lemma StepKeepsTickOrder(cfg: LRG, s: State, t: State, n: Notification)
    requires HaveDestinations(s.candidates) && SameDecisions(s, t) && (t.tick ==> s.tick)
    ensures Step(cfg, t, n).tick ==> Step(cfg, s, n).tick
  {
    hide ToMatch, FromMatch, Target, Equal, Add, Without;
  }

  lemma {:induction false} SafeAppend(cfg: LRG, s: State, q: seq<Notification>, n: Notification)
    requires Sound(cfg, s.candidates) && Safe(cfg, s, q) && !DeletesTarget(cfg, n)
    ensures Safe(cfg, s, q + [n])
    decreases |q|
  {
    hide Sound, Step, Target, DeletesTarget;
    if q == [] {
      assert q + [n] == [n] && [n][1..] == [];
      StepKeepsSound(cfg, s, n);
    } else {
      StepKeepsSound(cfg, s, q[0]);
      SafeAppend(cfg, Step(cfg, s, q[0]), q[1..], n);
      assert (q + [n])[1..] == q[1..] + [n];
    }
  }

  lemma DeliverKeepsCareful(cfg: LRG, l: Loop)
    requires Sound(cfg, l.gw.candidates) && l.queue != [] && Careful(cfg, l)
    ensures Sound(cfg, Deliver(cfg, l).gw.candidates) && Careful(cfg, Deliver(cfg, l))
  {
    hide Step, Sound, Disarms, Armed;
    StepKeepsSound(cfg, l.gw, l.queue[0]);
    StepDisarmsExactly(cfg, l.gw, l.queue[0]);
  }

  lemma InstallsKeepsCareful(cfg: LRG, l: Loop)
    requires Sound(cfg, l.gw.candidates) && l.gw.tick && Careful(cfg, l)
    ensures Careful(cfg, Installs(l))
  {
    hide Sound, Safe, ToMatch;
    var m := Installs(l);
    SafeWithoutTick(cfg, l.gw, m.gw, l.queue);
    SafeAppend(cfg, m.gw, l.queue, NewNote(l.gw.current.value));
  }

  lemma DeliverKeepsConverging(cfg: LRG, l: Loop, goal: Option<Route>)
    requires Converging(cfg, l, goal) && l.queue != []
    ensures Converging(cfg, Deliver(cfg, l), goal)
  {
    hide Step, Sound, ToMatch, Informed, Run, Tracks, Target, SlotOf;
    forall k | goal.Some? ==> k == SlotOf(goal.value) ensures Informed(cfg, Deliver(cfg, l), k) {
      DeliverKeepsInformed(cfg, l, k);
    }
    RunFront(cfg, l.gw, l.queue);
    StepKeepsHealthy(cfg, l.gw, l.queue[0]);
  }

  lemma InstallsKeepsHeading(cfg: LRG, l: Loop, goal: Option<Route>)
    requires Healthy(cfg, l.gw) && l.gw.tick && l.gw.current.Some? && Heads(cfg, l, goal)
    ensures Heads(cfg, Installs(l), goal)
  {
    hide Step, Sound, FromMatch, Target, Run;
    var m := Installs(l);
    var c := l.gw.current.value;
    RunIgnoresTicks(cfg, l.gw, m.gw, l.queue);
    RunExtends(cfg, m.gw, l.queue, NewNote(c));
    var before := Run(cfg, m.gw, l.queue);
    SoundHasDestinations(cfg, before.candidates);
    StepChangesCandidates(cfg, before, NewNote(c));
    StepTracks(cfg, before, NewNote(c));
  }

  lemma InstallsKeepsConverging(cfg: LRG, l: Loop, goal: Option<Route>)
    requires Converging(cfg, l, goal) && l.gw.tick && l.gw.current.Some?
    ensures Converging(cfg, Installs(l), goal)
  {
    hide Sound, Informed, Heads, SlotOf;
    forall k | goal.Some? ==> k == SlotOf(goal.value) ensures Informed(cfg, Installs(l), k) {
      InstallsKeepsInformed(cfg, l, k);
    }
    InstallsKeepsHeading(cfg, l, goal);
  }

  /* ---- The measure ---- */

  // Queued notifications other than shows of a target.
  function Others(cfg: LRG, q: seq<Notification>): nat {
    if q == [] then 0 else (if ShowsTarget(cfg, q[0]) then 0 else 1) + Others(cfg, q[1..])
  }

  // How many shows come before the first of those.
  function Lead(cfg: LRG, q: seq<Notification>): nat {
    if q == [] || !ShowsTarget(cfg, q[0]) then 0 else 1 + Lead(cfg, q[1..])
  }

  // Shows of something else than the goal.
  function Stale(cfg: LRG, q: seq<Notification>, goal: Route): nat {
    if q == [] then 0
    else (if ShowsTarget(cfg, q[0]) && Id(q[0].update.route) != Id(goal) then 1 else 0) + Stale(cfg, q[1..], goal)
  }

  // The pending installation would add a stale echo.
  function Threat(l: Loop, goal: Route): nat {
    if l.gw.tick && l.gw.current.Some? && Id(l.gw.current.value) != Id(goal) then 1 else 0
  }

  // Without a goal no show schedules an installation, so stale ones do no harm.
  function Second(cfg: LRG, l: Loop, goal: Option<Route>): nat {
    if Others(cfg, l.queue) > 0 then Lead(cfg, l.queue)
    else if goal.None? then 0
    else Stale(cfg, l.queue, goal.value) + Threat(l, goal.value)
  }

  function Pending(l: Loop): nat {
    if l.gw.tick then 1 else 0
  }

  lemma {:induction false} CountsAppend(cfg: LRG, q: seq<Notification>, n: Notification)
    requires ShowsTarget(cfg, n)
    ensures Others(cfg, q + [n]) == Others(cfg, q)
    ensures Others(cfg, q) > 0 ==> Lead(cfg, q + [n]) == Lead(cfg, q)
    decreases |q|
  {
    hide ShowsTarget;
    if q == [] {
      assert q + [n] == [n] && [n][1..] == [];
    } else {
      assert (q + [n])[1..] == q[1..] + [n];
      CountsAppend(cfg, q[1..], n);
    }
  }

  lemma {:induction false} StaleAppend(cfg: LRG, q: seq<Notification>, n: Notification, goal: Route)
    requires ShowsTarget(cfg, n)
    ensures Stale(cfg, q + [n], goal) == Stale(cfg, q, goal) + if Id(n.update.route) != Id(goal) then 1 else 0
    decreases |q|
  {
    hide ShowsTarget, Id;
    if q == [] {
      assert q + [n] == [n] && [n][1..] == [];
    } else {
      assert (q + [n])[1..] == q[1..] + [n];
      StaleAppend(cfg, q[1..], n, goal);
    }
  }

  lemma {:induction false} ShowsKeepCandidates(cfg: LRG, s: State, q: seq<Notification>)
    requires Sound(cfg, s.candidates) && Others(cfg, q) == 0
    ensures Run(cfg, s, q).candidates == s.candidates
    decreases |q|
  {
    hide Sound, Step, After;
    if q == [] {
      assert Run(cfg, s, q) == s;
    } else {
      SoundHasDestinations(cfg, s.candidates);
      RunFront(cfg, s, q);
      ShowKeepsCandidates(cfg, s, q[0]);
      ShowsKeepCandidates(cfg, Step(cfg, s, q[0]), q[1..]);
    }
  }

  lemma ShowKeepsCandidates(cfg: LRG, s: State, n: Notification)
    requires Sound(cfg, s.candidates) && ShowsTarget(cfg, n)
    ensures Step(cfg, s, n).candidates == s.candidates
  {
    StepChangesCandidates(cfg, s, n);
  }

  // The show of a target, once the candidates are final: the gateway believes in the goal after
  // it, and a show of the goal itself changes nothing else.
  lemma FinalShow(cfg: LRG, s: State, n: Notification, goal: Route)
    requires Sound(cfg, s.candidates) && ShowsTarget(cfg, n)
    requires Target(s.candidates, cfg.to).Some? && Id(Target(s.candidates, cfg.to).value) == Id(goal)
    ensures var t := Step(cfg, s, n);
            && t.current.Some? && Id(t.current.value) == Id(goal)
            && (Id(n.update.route) == Id(goal) ==> t.tick == s.tick)
  {
    hide Step, Sound, Target;
    SoundHasDestinations(cfg, s.candidates);
    var target := Target(s.candidates, cfg.to).value;
    ShowKeepsCandidates(cfg, s, n);
    StepTracks(cfg, s, n);
    IdDecidesEqual(target, Step(cfg, s, n).current.value);
    if Id(n.update.route) == Id(goal) {
      IdDecidesEqual(n.update.route, target);
      EchoChangesNothing(cfg, s, n.update.route);
    }
  }

  // Without a target a show schedules nothing.
  lemma IdleShow(cfg: LRG, s: State, n: Notification)
    requires Sound(cfg, s.candidates) && ShowsTarget(cfg, n) && Target(s.candidates, cfg.to).None?
    ensures Step(cfg, s, n).tick == s.tick
  {
  }

  predicate Smaller(cfg: LRG, m: Loop, l: Loop, goal: Option<Route>) {
    || Others(cfg, m.queue) < Others(cfg, l.queue)
    || (&& Others(cfg, m.queue) == Others(cfg, l.queue)
        && (|| Second(cfg, m, goal) < Second(cfg, l, goal)
            || (&& Second(cfg, m, goal) == Second(cfg, l, goal)
                && (Pending(m) < Pending(l) || (Pending(m) == Pending(l) && |m.queue| < |l.queue|)))))
  }

  lemma DeliverIsSmaller(cfg: LRG, l: Loop, goal: Option<Route>)
    requires Converging(cfg, l, goal) && l.queue != []
    ensures Smaller(cfg, Deliver(cfg, l), l, goal)
  {
    hide Step, Sound, Aware, Tracks, ToMatch, Target, Id;
    if ShowsTarget(cfg, l.queue[0]) && Others(cfg, l.queue) == 0 {
      ShowsKeepCandidates(cfg, l.gw, l.queue);
      if goal.Some? {
        FinalShow(cfg, l.gw, l.queue[0], goal.value);
      } else {
        IdleShow(cfg, l.gw, l.queue[0]);
      }
    }
  }

  lemma InstallsIsSmaller(cfg: LRG, l: Loop, goal: Option<Route>)
    requires Converging(cfg, l, goal) && l.gw.tick && l.gw.current.Some?
    ensures Smaller(cfg, Installs(l), l, goal)
  {
    hide Step, Sound, Aware, Tracks, Target, Heads, Id, ToMatch;
    CountsAppend(cfg, l.queue, NewNote(l.gw.current.value));
    if goal.Some? {
      StaleAppend(cfg, l.queue, NewNote(l.gw.current.value), goal.value);
    }
  }

  lemma RestIsSettled(cfg: LRG, l: Loop, goal: Option<Route>)
    requires Converging(cfg, l, goal) && l.queue == [] && !l.gw.tick
    ensures Settled(l, goal)
  {
    hide Step, Sound, Target, Equal, SlotOf;
    assert Run(cfg, l.gw, []) == l.gw;
    if goal.Some? {
      IdDecidesEqual(Target(l.gw.candidates, cfg.to).value, l.gw.current.value);
      SameIdSameSlot(l.gw.current.value, goal.value);
    }
    if l.gw.current.Some? {
      assert Informed(cfg, l, SlotOf(l.gw.current.value));
      HoldsATarget(cfg, l.kernel, l.gw.current.value);
    }
  }

  lemma {:induction false} RefusalsOnlyTry(s: State, times: nat)
    ensures AfterRefusals(s, times) == s.(attempts := AfterRefusals(s, times).attempts)
  {
    if times > 0 {
      RefusalsOnlyTry(s, times - 1);
    }
  }

  lemma TracksIgnoresTicks(cfg: LRG, s: State, t: State)
    ensures s.candidates == t.candidates && s.current == t.current ==> Tracks(cfg, s) == Tracks(cfg, t)
  {
  }

  // Neither the way to the goal nor its length depends on the refusals so far.
  lemma RefusalsKeepConverging(cfg: LRG, l: Loop, goal: Option<Route>, times: nat)
    requires Converging(cfg, l, goal) && Careful(cfg, l)
    ensures var m := Retried(l, times);
            && Converging(cfg, m, goal) && Careful(cfg, m)
            && m.queue == l.queue && m.gw.tick == l.gw.tick && m.gw.current == l.gw.current
            && Second(cfg, m, goal) == Second(cfg, l, goal) && Pending(m) == Pending(l)
  {
    hide Sound, Step, Run, Safe, Target, ToMatch, Others, Lead, Stale, AfterRefusals, LastSays, CopyAt;
    var m := Retried(l, times);
    RefusalsOnlyTry(l.gw, times);
    RunIgnoresTicks(cfg, l.gw, m.gw, l.queue);
    TracksIgnoresTicks(cfg, Run(cfg, l.gw, l.queue), Run(cfg, m.gw, l.queue));
    SafeWithoutTick(cfg, l.gw, m.gw, l.queue);
    forall k | Informed(cfg, l, k) ensures Informed(cfg, m, k) {
    }
  }

  lemma {:induction false} CarefulLoopsSettle(cfg: LRG, l: Loop, goal: Option<Route>)
    requires Converging(cfg, l, goal) && Careful(cfg, l)
    ensures Settles(cfg, l, goal)
    decreases Others(cfg, l.queue), Second(cfg, l, goal), Pending(l), |l.queue|
  {
    hide Sound, Safe, Aware, Heads, Deliver, Installs, Others, Second, Settled, Step, ToMatch, AfterRefusals;
    if l.queue == [] && !l.gw.tick {
      RestIsSettled(cfg, l, goal);
    } else {
      forall times: nat | l.queue != []
        ensures CanDeliver(cfg, Retried(l, times)) && Settles(cfg, Deliver(cfg, Retried(l, times)), goal)
      {
        var m := Retried(l, times);
        RefusalsKeepConverging(cfg, l, goal, times);
        DeliverKeepsConverging(cfg, m, goal);
        DeliverKeepsCareful(cfg, m);
        DeliverIsSmaller(cfg, m, goal);
        CarefulLoopsSettle(cfg, Deliver(cfg, m), goal);
      }
      forall times: nat | l.gw.tick
        ensures CanInstall(Retried(l, times)) && Settles(cfg, Installs(Retried(l, times)), goal)
      {
        var m := Retried(l, times);
        RefusalsKeepConverging(cfg, l, goal, times);
        InstallsKeepsConverging(cfg, m, goal);
        InstallsKeepsCareful(cfg, m);
        InstallsIsSmaller(cfg, m, goal);
        CarefulLoopsSettle(cfg, Installs(m), goal);
      }
    }
  }

  lemma CarefulBeforeDelivery(cfg: LRG, l: Loop)
    requires Sound(cfg, l.gw.candidates) && l.queue != [] && Armed(l.gw)
    requires Sound(cfg, Deliver(cfg, l).gw.candidates) && Careful(cfg, Deliver(cfg, l))
    ensures Careful(cfg, l)
  {
    hide Step, Sound, Disarms;
    StepDisarmsExactly(cfg, l.gw, l.queue[0]);
  }

  // A loop that settles whatever the schedule also does so when all deliveries come first.
  lemma {:induction false} SettlingLoopsAreCareful(cfg: LRG, l: Loop, goal: Option<Route>)
    requires Sound(cfg, l.gw.candidates) && Settles(cfg, l, goal)
    ensures Careful(cfg, l)
    decreases |l.queue|
  {
    hide Sound, Step, Disarms;
    if l.queue != [] {
      assert Retried(l, 0) == l;
      StepKeepsSound(cfg, l.gw, l.queue[0]);
      SettlingLoopsAreCareful(cfg, Deliver(cfg, l), goal);
      CarefulBeforeDelivery(cfg, l);
    }
  }

  // With no further change from outside, every schedule of the loop ends at rest, the kernel
  // holding the route the gateway believes in, and the target if there is one, if and only if no
  // queued notification disarms the gateway.
  lemma LoopSettles(cfg: LRG, l: Loop, goal: Option<Route>)
    requires Converging(cfg, l, goal)
    ensures Settles(cfg, l, goal) <==> Careful(cfg, l)
  {
    hide Sound, Careful, Aware, Heads;
    if Careful(cfg, l) {
      CarefulLoopsSettle(cfg, l, goal);
    }
    if Settles(cfg, l, goal) {
      SettlingLoopsAreCareful(cfg, l, goal);
    }
  }

  // What the gateway will want once its queue is processed.
  function Goal(cfg: LRG, l: Loop): Option<Route>
    requires Sound(cfg, l.gw.candidates)
  {
    Target(Run(cfg, l.gw, l.queue).candidates, cfg.to)
  }

  // From every state of every run, whatever is queued and stale, as long as no arrival has
  // usurped a slot the gateway may end on.
  lemma EveryReachableLoopSettles(cfg: LRG, ls: seq<Loop>, ms: seq<Move>, i: nat)
    requires IsLoopRun(cfg, ls, ms) && i < |ls|
    requires Sound(cfg, ls[i].gw.candidates) && Tracks(cfg, Run(cfg, ls[i].gw, ls[i].queue))
    requires forall j, k | 0 <= j < i && UsurpedAt(cfg, ls[j], ms[j], k) ::
               Goal(cfg, ls[i]).Some? && k != SlotOf(Goal(cfg, ls[i]).value)
    ensures Settles(cfg, ls[i], Goal(cfg, ls[i])) <==> Careful(cfg, ls[i])
  {
    hide IsLoopRun, UsurpedAt, Informed, Tracks, Target, Careful, Run, Sound, SlotOf;
    var goal := Goal(cfg, ls[i]);
    LoopRunsAreHealthy(cfg, ls, ms, i);
    forall k | goal.Some? ==> k == SlotOf(goal.value) ensures Informed(cfg, ls[i], k) {
      LoopRunsAreInformedExactly(cfg, ls, ms, i, k);
    }
    LoopSettles(cfg, ls[i], goal);
  }

  // Without a blackhole the gateway always believes in its target in the end.
  lemma {:induction false} LoopRunsTrack(cfg: LRG, ls: seq<Loop>, ms: seq<Move>, i: nat)
    requires !cfg.to.blackhole
    requires IsLoopRun(cfg, ls, ms) && i < |ls|
    ensures Sound(cfg, ls[i].gw.candidates) && Tracks(cfg, ls[i].gw)
  {
    hide Sound, Step, After, Tracks, Target, Apply;
    if i == 0 {
      StartTracks(cfg);
    } else {
      LoopRunsTrack(cfg, ls, ms, i - 1);
      var l := ls[i - 1];
      if ms[i - 1] == Delivers {
        StepKeepsTracking(cfg, l.gw, l.queue[0]);
      } else {
        TracksIgnoresTicks(cfg, l.gw, ls[i].gw);
      }
    }
  }

  lemma StartTracks(cfg: LRG)
    requires !cfg.to.blackhole
    ensures Sound(cfg, GatewaySpec.INITIAL.candidates) && Tracks(cfg, GatewaySpec.INITIAL)
  {
  }

  lemma StepKeepsTracking(cfg: LRG, s: State, n: Notification)
    requires !cfg.to.blackhole && Sound(cfg, s.candidates) && Tracks(cfg, s)
    ensures Sound(cfg, Step(cfg, s, n).candidates) && Tracks(cfg, Step(cfg, s, n))
  {
    hide Step, Sound, Tracks;
    StepKeepsSound(cfg, s, n);
    StepTracks(cfg, s, n);
  }

  // So without a blackhole from every state of every run that usurped nothing: on the rewritten
  // best of the remaining candidates, or, when none remains, on the last route known.
  lemma LoopsWithoutBlackholeSettle(cfg: LRG, ls: seq<Loop>, ms: seq<Move>, i: nat)
    requires !cfg.to.blackhole
    requires IsLoopRun(cfg, ls, ms) && i < |ls|
    requires forall j, k | 0 <= j < i :: !UsurpedAt(cfg, ls[j], ms[j], k)
    ensures Sound(cfg, ls[i].gw.candidates)
    ensures var best := Best(Run(cfg, ls[i].gw, ls[i].queue).candidates);
            var goal := if best.Some? then Some(Rewrite(best.value, cfg.to)) else None;
            Settles(cfg, ls[i], goal) <==> Careful(cfg, ls[i])
  {
    hide IsLoopRun, UsurpedAt, Tracks, Careful, Run, Sound, Best, Settles;
    LoopRunsTrack(cfg, ls, ms, i);
    RunTracks(cfg, ls[i].gw, ls[i].queue);
    EveryReachableLoopSettles(cfg, ls, ms, i);
  }
}

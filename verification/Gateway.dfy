/**
 The gateway as the daemon runs it (gateways/gateway.go and gateways/root.go): route objects
 shared between gateways, a mutable state per gateway, and the fan-out of the notifications.
 */
module Gateway {
  import opened Options
  import opened IPNets
  import opened Routes
  import opened Configuration
  import opened GatewaySpec
  import opened GatewayRuns

  /** A netlink.Route as it is shared: behind a pointer, with fields that can be assigned. */
  class RouteObject {
    var dst: Option<IPNet>
    var table: Int
    var tos: Int
    var priority: Int
    var protocol: Int
    var kind: Int
    var gw: IP
    var attributes: int

    function Value(): Route
      reads this
    {
      Route(dst, table, tos, priority, protocol, kind, gw, attributes)
    }

    constructor (r: Route)
      ensures Value() == r
    {
      dst, table, tos, priority := r.dst, r.table, r.tos, r.priority;
      protocol, kind, gw, attributes := r.protocol, r.kind, r.gw, r.attributes;
    }
  }

  function Values(routes: seq<RouteObject>): (rs: seq<Route>)
    reads set o | o in routes
    ensures |rs| == |routes|
    ensures forall i | 0 <= i < |rs| :: rs[i] == routes[i].Value()
  {
    if routes == [] then [] else Values(routes[..|routes| - 1]) + [routes[|routes| - 1].Value()]
  }

  lemma ValuesOfAppend(routes: seq<RouteObject>, route: RouteObject)
    ensures Values(routes + [route]) == Values(routes) + [route.Value()]
  {
    assert (routes + [route])[..|routes|] == routes;
  }

  lemma ValuesOfNone()
    ensures Values([]) == [] && Best([]).None? && forall r :: Without([], r) == [] && (r.dst.Some? ==> Unreplaced([], r) == [])
  {
  }

  // One turn of each of the three loops over the candidates.
  lemma LoopTurn(cs: seq<Route>, c: Route, r: Route)
    ensures Best(cs + [c]) == if Best(cs).None? || Better(c, Best(cs).value) then Some(c) else Best(cs)
    ensures Without(cs + [c], r) == Without(cs, r) + if Equal(c, r) then [] else [c]
    ensures r.dst.Some? && HaveDestinations(cs + [c]) ==>
              Unreplaced(cs + [c], r) == Unreplaced(cs, r) + if Replaces(r, c) then [] else [c]
  {
    assert (cs + [c])[..|cs|] == cs;
  }

  lemma KnownIsNotAdded(cs: seq<Route>, r: Route, i: nat)
    requires r.dst.Some? && HaveDestinations(cs) && i < |cs| && Equal(cs[i], r)
    ensures Add(cs, r) == cs
  {
  }

  lemma UnknownIsAdded(cs: seq<Route>, r: Route)
    requires r.dst.Some? && HaveDestinations(cs) && forall i | 0 <= i < |cs| :: !Equal(cs[i], r)
    ensures Add(cs, r) == Unreplaced(cs, r) + [r]
  {
  }

  // A notification as it travels to the gateways: all of them receive the same route object.
  datatype Message = Start | End | Changed(kind: UpdateKind, route: RouteObject)

  function Meaning(m: Message): Notification
    reads if m.Changed? then {m.route} else {}
  {
    match m
    case Start => StartOfRIB
    case End => EndOfRIB
    case Changed(kind, route) => Update(RouteUpdate(kind, route.Value()))
  }

  // What the select of runGateway can pick.
  datatype Event = Notified(m: Message) | Ticked(accepted: bool)

  function Chosen(e: Event): Action
    reads if e.Notified? && e.m.Changed? then {e.m.route} else {}
  {
    match e
    case Notified(m) => Notify(Meaning(m))
    case Ticked(accepted) => TickFires(accepted)
  }

  /** bestCandidateRoute */
  method BestCandidateRoute(candidates: seq<RouteObject>) returns (best: RouteObject?)
    ensures best == null <==> candidates == []
    ensures best != null ==> best in candidates
    // No candidate has a lower TOS, or the same and a lower priority.
    ensures best != null ==>
              forall c <- candidates :: best.tos <= c.tos && (best.tos == c.tos ==> best.priority <= c.priority)
    ensures Best(Values(candidates)) == if best == null then None else Some(best.Value())
  {
    hide Best, Values;
    ghost var cs := Values(candidates);
    best := null;
    ValuesOfNone();
    for i := 0 to |candidates|
      invariant best == null <==> i == 0
      invariant best != null ==> best in candidates
      invariant forall j | 0 <= j < i :: best.tos <= candidates[j].tos && (best.tos == candidates[j].tos ==> best.priority <= candidates[j].priority)
      invariant Best(cs[..i]) == if best == null then None else Some(best.Value())
    {
      var current := candidates[i];
      assert cs[..i + 1] == cs[..i] + [cs[i]];
      LoopTurn(cs[..i], cs[i], cs[i]);
      if best == null || best.tos > current.tos || (best.tos == current.tos && best.priority > current.priority) {
        best := current;
      }
    }
    assert cs[..|cs|] == cs;
  }

  /** targetRoute: the fields are overwritten in a copy, never in the candidate. */
  method TargetRoute(candidates: seq<RouteObject>, to: LRGTo) returns (target: RouteObject?)
    ensures target != null ==> fresh(target)
    ensures Target(Values(candidates), to) == if target == null then None else Some(target.Value())
  {
    hide Best, Values;
    var best := BestCandidateRoute(candidates);
    if best == null {
      if !to.blackhole {
        return null;
      }
      target := new RouteObject(BLACKHOLE);
    } else {
      target := new RouteObject(best.Value());
    }
    target.dst := Some(to.prefix);
    target.protocol := ToInt(to.protocol);
    target.priority := ToInt(to.metric);
    target.table := ToInt(to.table);
  }

  class LastResortGateway {
    const config: LRG
    var candidateRoutes: seq<RouteObject>
    var currentRoute: RouteObject?
    var installationTick: bool
    var changes: nat
    var queue: seq<Message>
    // What the kernel was asked and what it accepted, and the notifications processed.
    ghost var attempts: seq<Route>
    ghost var installed: seq<Route>
    ghost var processed: seq<Notification>
    ghost var history: seq<Action>

    constructor (config: LRG)
      ensures this.config == config && Abs() == INITIAL && queue == [] && processed == [] && history == []
      ensures Follows([], {})
    {
      this.config := config;
      candidateRoutes, currentRoute, installationTick, changes := [], null, false, 0;
      queue := [];
      attempts, installed, processed, history := [], [], [], [];
    }

    ghost function Abs(): State
      reads this`candidateRoutes, this`currentRoute, this`installationTick, this`changes, this`attempts, this`installed
      reads set o | o in candidateRoutes, if currentRoute == null then {} else {currentRoute}
    {
      State(Values(candidateRoutes), if currentRoute == null then None else Some(currentRoute.Value()),
            installationTick, changes, attempts, installed)
    }

    method RemoveCandidateRoute(route: RouteObject)
      modifies this`candidateRoutes
      ensures Abs() == old(Abs()).(candidates := Without(old(Abs()).candidates, route.Value()))
      ensures forall o <- candidateRoutes :: o in old(candidateRoutes)
    {
      hide Best, Values, Without, Equal;
      var routes, kept := candidateRoutes, [];
      ghost var cs, gone := Values(routes), route.Value();
      ValuesOfNone();
      for i := 0 to |routes|
        invariant Values(kept) == Without(cs[..i], gone)
        invariant forall o <- kept :: o in routes
      {
        var current := routes[i];
        assert cs[..i + 1] == cs[..i] + [cs[i]];
        LoopTurn(cs[..i], cs[i], gone);
        if !Equal(current.Value(), route.Value()) {
          ValuesOfAppend(kept, current);
          kept := kept + [current];
        }
      }
      assert cs[..|cs|] == cs;
      candidateRoutes := kept;
    }

    method AddCandidateRoute(route: RouteObject)
      requires route.dst.Some? && HaveDestinations(Values(candidateRoutes))
      modifies this`candidateRoutes
      ensures Abs() == old(Abs()).(candidates := Add(old(Abs()).candidates, route.Value()))
      ensures forall o <- candidateRoutes :: o in old(candidateRoutes) || o == route
    {
      hide Best, Values, Unreplaced, Equal, IPNetEqual, Add;
      var routes, kept := candidateRoutes, [];
      ghost var cs, added := Values(routes), route.Value();
      ValuesOfNone();
      for i := 0 to |routes|
        invariant candidateRoutes == routes
        invariant Values(kept) == Unreplaced(cs[..i], added)
        invariant forall o <- kept :: o in routes
        invariant forall j | 0 <= j < i :: !Equal(cs[j], added)
      {
        var current := routes[i];
        assert current.Value() == cs[i] && cs[i] in cs;
        if Equal(current.Value(), route.Value()) {
          KnownIsNotAdded(cs, added, i);
          return;
        }
        assert cs[..i + 1] == cs[..i] + [cs[i]];
        LoopTurn(cs[..i], cs[i], added);
        if IPNetEqual(current.dst.value, route.dst.value) && current.table == route.table
           && current.tos == route.tos && current.priority == route.priority {
          continue;
        }
        ValuesOfAppend(kept, current);
        kept := kept + [current];
      }
      assert cs[..|cs|] == cs;
      UnknownIsAdded(cs, added);
      ValuesOfAppend(kept, route);
      candidateRoutes := kept + [route];
    }

    method InstallRoute()
      modifies this`installationTick
      ensures installationTick
    {
      installationTick := true;
    }

    method InstallCandidateRoute()
      modifies this`currentRoute, this`installationTick, this`changes
      ensures Abs() == Install(config, old(Abs()))
      ensures currentRoute == old(currentRoute) || (currentRoute != null && fresh(currentRoute))
    {
      hide Target, Values, Equal;
      var target := TargetRoute(candidateRoutes, config.to);
      if target == null {
        return;
      }
      if currentRoute != null && Equal(target.Value(), currentRoute.Value()) {
        return;
      }
      changes := changes + 1;
      currentRoute := target;
      InstallRoute();
    }

    /** processNotification. The route objects themselves are never assigned. */
    method ProcessNotification(m: Message)
      requires HaveDestinations(Abs().candidates)
      modifies this`candidateRoutes, this`currentRoute, this`installationTick, this`changes
      ensures Abs() == Step(config, old(Abs()), old(Meaning(m)))
      ensures forall o <- candidateRoutes :: o in old(candidateRoutes) || (m.Changed? && o == m.route)
      ensures currentRoute == null || currentRoute == old(currentRoute) || fresh(currentRoute) || (m.Changed? && currentRoute == m.route)
    {
      hide Install, ToMatch, IPNetEqual, Add, Without, Values, HaveDestinations;
      match m
      case Start =>
        candidateRoutes := [];
        ValuesOfNone();
      case End => InstallCandidateRoute();
      case Changed(kind, route) =>
        if ToMatch(config.to, route.Value()) {
          match kind
          case DelRoute =>
            currentRoute := null;
            InstallCandidateRoute();
          case NewRoute =>
            currentRoute := route;
            InstallCandidateRoute();
          case OtherUpdate =>
        } else if FromMatch(config.from, route.Value()) {
          match kind
          case DelRoute =>
            RemoveCandidateRoute(route);
            InstallCandidateRoute();
          case NewRoute =>
            AddCandidateRoute(route);
            InstallCandidateRoute();
          case OtherUpdate =>
        }
    }

    /** The tick branch of runGateway; `accepted` is the answer of AddRoute. */
    method HandleTick(accepted: bool)
      requires installationTick && currentRoute != null
      modifies this`installationTick, this`attempts, this`installed
      ensures Abs() == Tick(old(Abs()), accepted)
      // AddRoute gets the current route, and the tick stays pending until it accepts.
      ensures attempts == old(attempts) + [old(currentRoute.Value())]
      ensures installed == if accepted then old(installed) + [old(currentRoute.Value())] else old(installed)
      ensures installationTick == !accepted
    {
      attempts := attempts + [currentRoute.Value()];
      if !accepted {
        return;
      }
      installed := installed + [currentRoute.Value()];
      installationTick := false;
    }

    /** The tick branch, of a gateway that follows what is published. */
    method TakeTick(accepted: bool, ghost published: seq<Notification>, ghost shared: set<RouteObject>)
      requires Follows(published, shared) && installationTick && currentRoute != null
      modifies this`installationTick, this`attempts, this`installed, this`history
      ensures Follows(published, shared)
      ensures Abs() == Tick(old(Abs()), accepted)
      ensures attempts == old(attempts) + [old(currentRoute.Value())]
      ensures history == old(history) + [TickFires(accepted)]
    {
      hide Values, Play, Notes, Sound, Meaning;
      ghost var s := Abs();
      StartIsSound(config);
      PlayExtends(config, INITIAL, history, TickFires(accepted));
      HandleTick(accepted);
      history := history + [TickFires(accepted)];
      assert Abs() == Tick(s, accepted);
    }

    /** One iteration of runGateway that does not panic. */
    method Iterate(e: Event)
      requires HaveDestinations(Abs().candidates)
      requires Act(config, Abs(), Chosen(e)).Some?
      modifies this
      ensures Act(config, old(Abs()), old(Chosen(e))) == Some(Abs())
    {
      hide Step;
      match e
      case Notified(m) => ProcessNotification(m);
      case Ticked(accepted) =>
        if installationTick {
          HandleTick(accepted);
        }
    }

    // The gateway is where the notifications published so far, up to those still in its queue, and
    // the ticks that fired between them have led it: the values the notifications had when they
    // were published are the ones it reads.
    ghost predicate Follows(published: seq<Notification>, shared: set<RouteObject>)
      reads this, shared
    {
      && (forall o <- candidateRoutes :: o in shared)
      && (currentRoute != null ==> currentRoute in shared)
      && (forall m <- queue :: m.Changed? ==> m.route in shared)
      && Sound(config, Abs().candidates)
      && |published| == |processed| + |queue| && processed == published[..|processed|]
      && (forall i | 0 <= i < |queue| :: Meaning(queue[i]) == published[|processed| + i])
      && Notes(history) == processed && Play(config, INITIAL, history) == Some(Abs())
    }

    lemma FollowsWithMore(published: seq<Notification>, shared: set<RouteObject>, more: set<RouteObject>)
      requires Follows(published, shared) && shared <= more
      ensures Follows(published, more)
    {
    }

    method Enqueue(m: Message, ghost published: seq<Notification>, ghost shared: set<RouteObject>)
      requires Follows(published, shared) && (m.Changed? ==> m.route in shared)
      modifies this`queue
      ensures Follows(published + [Meaning(m)], shared)
      ensures queue == old(queue) + [m]
    {
      hide Values, Play, Notes, Sound, Meaning;
      queue := queue + [m];
    }

    /** The notification branch of runGateway. */
    method Dequeue(ghost published: seq<Notification>, ghost shared: set<RouteObject>)
      returns (ghost known: set<RouteObject>)
      requires Follows(published, shared) && queue != []
      modifies this
      ensures shared <= known && fresh(known - shared)
      ensures Follows(published, known)
      ensures queue == old(queue)[1..] && processed == old(processed) + [old(Meaning(queue[0]))]
      ensures history == old(history) + [Notify(old(Meaning(queue[0])))]
      ensures HaveDestinations(old(Abs()).candidates) && Abs() == Step(config, old(Abs()), old(Meaning(queue[0])))
    {
      hide Values, Play, Notes, Step, Sound, Meaning, HaveDestinations, Abs;
      var m := queue[0];
      ghost var n, s := Meaning(m), Abs();
      assert n == published[|processed|];
      SoundHasDestinations(config, s.candidates);
      ghost var rest := queue[1..];
      assert forall i | 0 <= i < |rest| :: rest[i] == queue[i + 1];
      ProcessNotification(m);
      queue := queue[1..];
      StartIsSound(config);
      PlayNotified(config, INITIAL, history, n);
      processed, history := processed + [n], history + [Notify(n)];
      known := shared + if currentRoute == null then {} else {currentRoute};
      assert Abs() == Step(config, s, n);
    }
  }

  /** The gateway component: one gateway for each configuration entry, all fed by one callback. */
  class Component {
    var gateways: seq<LastResortGateway>
    ghost var published: seq<Notification>
    ghost var shared: set<RouteObject>

    ghost predicate Valid()
      reads this, gateways, shared
    {
      && (forall i, j | 0 <= i < j < |gateways| :: gateways[i] != gateways[j])
      && (forall g <- gateways :: g.Follows(published, shared))
    }

    constructor (config: seq<LRG>)
      ensures Valid() && published == [] && fresh(gateways)
      ensures |gateways| == |config| && forall i | 0 <= i < |config| :: gateways[i].config == config[i]
    {
      hide LastResortGateway.Abs, LastResortGateway.Follows;
      gateways, published, shared := [], [], {};
      new;
      for i := 0 to |config|
        invariant |gateways| == i && fresh(gateways) && published == [] && shared == {}
        invariant forall j | 0 <= j < i :: gateways[j].config == config[j]
        invariant Valid()
      {
        var gw := new LastResortGateway(config[i]);
        gateways := gateways + [gw];
      }
    }

    /** The subscription callback: the same route object is handed to every gateway. */
    method Publish(m: Message)
      requires Valid()
      modifies this`published, this`shared, (set g | g in gateways)`queue
      ensures Valid()
      ensures published == old(published) + [old(Meaning(m))]
      ensures forall g <- gateways :: g.queue == old(g.queue) + [m]
    {
      hide Values, Play, Sound, LastResortGateway.Abs, LastResortGateway.Follows;
      ghost var before, known := published, shared;
      shared := shared + if m.Changed? then {m.route} else {};
      forall g <- gateways ensures g.Follows(published, shared) {
        g.FollowsWithMore(published, known, shared);
      }
      ghost var after := published + [Meaning(m)];
      for i := 0 to |gateways|
        invariant published == before
        invariant known <= shared && (m.Changed? ==> m.route in shared)
        invariant forall j, l | 0 <= j < l < |gateways| :: gateways[j] != gateways[l]
        invariant forall j | i <= j < |gateways| :: gateways[j].Follows(before, shared)
        invariant forall j | 0 <= j < i :: gateways[j].Follows(after, shared)
        invariant forall j | 0 <= j < i :: gateways[j].queue == old(gateways[j].queue) + [m]
        invariant forall j | i <= j < |gateways| :: gateways[j].queue == old(gateways[j].queue)
      {
        gateways[i].Enqueue(m, before, shared);
      }
      published := published + [Meaning(m)];
    }

    /** One gateway takes its next notification; the others and the shared routes are untouched. */
    method Process(i: nat)
      requires Valid() && i < |gateways| && gateways[i].queue != []
      modifies this`shared, gateways[i]
      ensures Valid()
      ensures gateways[i].processed == old(gateways[i].processed + [Meaning(gateways[i].queue[0])])
      ensures gateways[i].history == old(gateways[i].history + [Notify(Meaning(gateways[i].queue[0]))])
      ensures gateways[i].queue == old(gateways[i].queue)[1..]
      ensures HaveDestinations(old(gateways[i].Abs()).candidates)
      ensures gateways[i].Abs() == Step(gateways[i].config, old(gateways[i].Abs()), old(Meaning(gateways[i].queue[0])))
    {
      hide Values, Play, Notes, Step, Sound, HaveDestinations, Meaning;
      ghost var known := shared;
      assert forall j | 0 <= j < |gateways| && j != i :: gateways[j] != gateways[i] && gateways[j].Follows(published, known);
      shared := gateways[i].Dequeue(published, shared);
      forall j | 0 <= j < |gateways| ensures gateways[j].Follows(published, shared) {
        if j != i {
          gateways[j].FollowsWithMore(published, known, shared);
        }
      }
    }

    /** A pending tick of one gateway fires. */
    method Fire(i: nat, accepted: bool)
      requires Valid() && i < |gateways| && gateways[i].installationTick && gateways[i].currentRoute != null
      modifies gateways[i]
      ensures Valid()
      ensures gateways[i].Abs() == Tick(old(gateways[i].Abs()), accepted)
      ensures gateways[i].attempts == old(gateways[i].attempts) + [old(gateways[i].currentRoute.Value())]
      ensures gateways[i].queue == old(gateways[i].queue)
      ensures gateways[i].history == old(gateways[i].history) + [TickFires(accepted)]
    {
      hide LastResortGateway.Abs, LastResortGateway.Follows;
      assert forall j | 0 <= j < |gateways| && j != i :: gateways[j] != gateways[i] && gateways[j].Follows(published, shared);
      gateways[i].TakeTick(accepted, published, shared);
    }

    // Whatever the other gateways did, a gateway that has emptied its queue is where its own
    // actions led it, whose notifications are those published; so it has the candidates and the
    // last-resort route of a gateway that alone received them.
    lemma Isolation(i: nat)
      requires Valid() && i < |gateways| && gateways[i].queue == []
      ensures Notes(gateways[i].history) == published
      ensures Play(gateways[i].config, INITIAL, gateways[i].history) == Some(gateways[i].Abs())
      ensures SameDecisions(gateways[i].Abs(), Run(gateways[i].config, INITIAL, published))
    {
      hide Run, Play, Notes, Values;
      var g := gateways[i];
      assert g.Follows(published, shared);
      assert g.processed == published;
      TicksDoNotDecide(g.config, INITIAL, g.history);
    }
  }
}

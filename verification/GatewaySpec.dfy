/**
 What one gateway computes (gateways/gateway.go), on values. The class in Gateway.dfy is proved
 against these functions, and the properties of the gateway are proved about them.
 */
module GatewaySpec {
  import opened Options
  import opened IPNets
  import opened Routes
  import opened Configuration

  datatype State = State(
    candidates: seq<Route>,    // the source routes known to exist
    current: Option<Route>,    // the last-resort route, installed or to be installed
    tick: bool,                // an installation is pending
    changes: nat,              // the "changes" counter of the gateway
    attempts: seq<Route>,      // every route handed to AddRoute so far
    installed: seq<Route>)     // those AddRoute accepted

  const INITIAL := State([], None, false, 0, [], [])

  // Lower TOS first, then lower priority.
  predicate Better(a: Route, b: Route) {
    a.tos < b.tos || (a.tos == b.tos && a.priority < b.priority)
  }

  function Best(candidates: seq<Route>): Option<Route> {
    if candidates == [] then None
    else
      var best := Best(candidates[..|candidates| - 1]);
      var current := candidates[|candidates| - 1];
      if best.None? || Better(current, best.value) then Some(current) else best
  }

  const BLACKHOLE := ZERO_ROUTE.(kind := RTN_BLACKHOLE)

  function Rewrite(r: Route, to: LRGTo): Route {
    r.(dst := Some(to.prefix), protocol := ToInt(to.protocol), priority := ToInt(to.metric),
       table := ToInt(to.table))
  }

  function Target(candidates: seq<Route>, to: LRGTo): Option<Route> {
    match Best(candidates)
    case Some(best) => Some(Rewrite(best, to))
    case None => if to.blackhole then Some(Rewrite(BLACKHOLE, to)) else None
  }

  // The candidates not Equal to `r`.
  function Without(candidates: seq<Route>, r: Route): seq<Route> {
    if candidates == [] then []
    else
      var rest := Without(candidates[..|candidates| - 1], r);
      var current := candidates[|candidates| - 1];
      if Equal(current, r) then rest else rest + [current]
  }

  // Same table, prefix, TOS and priority. Candidates always have a destination.
  predicate Replaces(r: Route, current: Route)
    requires r.dst.Some? && current.dst.Some?
  {
    && IPNetEqual(current.dst.value, r.dst.value)
    && current.table == r.table && current.tos == r.tos && current.priority == r.priority
  }

  predicate HaveDestinations(candidates: seq<Route>) {
    forall c <- candidates :: c.dst.Some?
  }

  // The candidates `r` does not replace.
  function Unreplaced(candidates: seq<Route>, r: Route): seq<Route>
    requires r.dst.Some? && HaveDestinations(candidates)
  {
    if candidates == [] then []
    else
      var rest := Unreplaced(candidates[..|candidates| - 1], r);
      var current := candidates[|candidates| - 1];
      if Replaces(r, current) then rest else rest + [current]
  }

  function Add(candidates: seq<Route>, r: Route): seq<Route>
    requires r.dst.Some? && HaveDestinations(candidates)
  {
    if exists i | 0 <= i < |candidates| :: Equal(candidates[i], r) then candidates
    else Unreplaced(candidates, r) + [r]
  }

  function Install(cfg: LRG, s: State): State {
    var target := Target(s.candidates, cfg.to);
    if target.None? || (s.current.Some? && Equal(target.value, s.current.value)) then s
    else s.(current := target, tick := true, changes := s.changes + 1)
  }

  function Step(cfg: LRG, s: State, n: Notification): State
    requires HaveDestinations(s.candidates)
  {
    match n
    case StartOfRIB => s.(candidates := [])
    case EndOfRIB => Install(cfg, s)
    case Update(RouteUpdate(kind, r)) =>
      if ToMatch(cfg.to, r) then
        match kind
        case DelRoute => Install(cfg, s.(current := None))
        case NewRoute => Install(cfg, s.(current := Some(r)))
        case OtherUpdate => s
      else if FromMatch(cfg.from, r) then
        match kind
        case DelRoute => Install(cfg, s.(candidates := Without(s.candidates, r)))
        case NewRoute => Install(cfg, s.(candidates := Add(s.candidates, r)))
        case OtherUpdate => s
      else s
  }

  // A pending tick fires. The source dereferences the current route without looking: it must exist.
  function Tick(s: State, accepted: bool): State
    requires s.tick && s.current.Some?
  {
    var s := s.(attempts := s.attempts + [s.current.value]);
    if accepted then s.(tick := false, installed := s.installed + [s.current.value]) else s
  }

  // What the firing tick hands to AddRoute.
  function Handed(s: State): Route
    requires s.tick && s.current.Some?
  {
    var tried := Tick(s, true).attempts;
    tried[|tried| - 1]
  }

  // What every reachable candidate list satisfies.
  predicate Sound(cfg: LRG, candidates: seq<Route>) {
    && (forall i | 0 <= i < |candidates| :: Watched(cfg, candidates[i]))
    && (forall i, j | 0 <= i < j < |candidates| :: SlotOf(candidates[i]) != SlotOf(candidates[j]))
  }
}

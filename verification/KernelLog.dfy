/** The kernel's routing tables as the history of their changes, and what a dump of them lists. */
module KernelLog {
  import opened Options
  import opened IPNets
  import opened Routes
  import opened Configuration

  type Log = seq<RouteUpdate>
  type Rib = map<Slot, Route>

  function Apply(rib: Rib, u: RouteUpdate): Rib {
    match u.kind
    case NewRoute => rib[SlotOf(u.route) := u.route]
    case DelRoute => rib - {SlotOf(u.route)}
    case OtherUpdate => rib
  }

  function RibOf(log: Log): (rib: Rib)
    ensures forall k <- rib :: SlotOf(rib[k]) == k
  {
    if log == [] then map[] else Apply(RibOf(log[..|log| - 1]), log[|log| - 1])
  }

  // The kernel only announces the removal of a route that is there.
  predicate Legal(rib: Rib, u: RouteUpdate) {
    u.kind == DelRoute ==> SlotOf(u.route) in rib && Equal(rib[SlotOf(u.route)], u.route)
  }

  predicate WellFormed(log: Log) {
    forall i | 0 <= i < |log| :: Legal(RibOf(log[..i]), log[i])
  }

  lemma RibStep(log: Log, i: nat)
    requires i < |log|
    ensures RibOf(log[..i + 1]) == Apply(RibOf(log[..i]), log[i])
  {
    assert log[..i + 1][..i] == log[..i];
  }

  datatype Family = V4 | V6

  // A route without a destination may be reported with either family.
  predicate InFamily(f: Family, r: Route) {
    r.dst.Some? ==> (To4(r.dst.value.ip).Some? <==> f == V4)
  }

  predicate DistinctSlots(dump: seq<Route>) {
    forall i, j | 0 <= i < j < |dump| :: SlotOf(dump[i]) != SlotOf(dump[j])
  }

  // `dump` lists the routes of one family, in any order, each once.
  predicate Lists(dump: seq<Route>, rib: Rib, f: Family) {
    && (forall r <- dump :: SlotOf(r) in rib && rib[SlotOf(r)] == r && InFamily(f, r))
    && DistinctSlots(dump)
    && (forall k <- rib :: rib[k].dst.Some? && InFamily(f, rib[k]) ==> rib[k] in dump)
  }

  // What the kernel holds for a gateway at a slot.
  function Visible(cfg: LRG, rib: Rib, k: Slot): Option<RouteId> {
    if k in rib && Watched(cfg, rib[k]) then Some(Id(rib[k])) else None
  }

  function FamilyOf(cfg: LRG): Family {
    if To4(cfg.from.prefix.ip).Some? then V4 else V6
  }

  lemma SourcesAreOfOneFamily(cfg: LRG, r: Route, f: Family)
    requires Watched(cfg, r)
    ensures r.dst.Some?
    ensures InFamily(f, r) <==> f == FamilyOf(cfg)
  {
    EqualAddressesShareFamily(cfg.from.prefix.ip, r.dst.value.ip);
  }

  // `u` replaces a source of the gateway by a route that is none, which the gateway ignores.
  predicate Masks(cfg: LRG, rib: Rib, u: RouteUpdate) {
    && u.kind == NewRoute && !Watched(cfg, u.route)
    && SlotOf(u.route) in rib && Watched(cfg, rib[SlotOf(u.route)])
  }

  predicate NoMasking(cfg: LRG, log: Log, from: nat, to: nat)
    requires to <= |log|
  {
    forall i | from <= i < to :: !Masks(cfg, RibOf(log[..i]), log[i])
  }
}

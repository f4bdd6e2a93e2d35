/**
 Routes, route updates and notifications, as they flow from the kernel to the gateways.

 `Equal` stands for the comparison of the netlink library, which is not part of this model:
 the fields the daemon reads are compared as the daemon compares them, and `attributes`
 stands for all the others.
 */
module Routes {
  import opened Options
  import opened IPNets

  // Go's int and uint on a 64-bit machine, and the conversions between them.
  const TWO_TO_63 := 0x8000_0000_0000_0000
  const TWO_TO_64 := 0x1_0000_0000_0000_0000

  type Int = x: int | -TWO_TO_63 <= x < TWO_TO_63
  type Uint = x: int | 0 <= x < TWO_TO_64

  function ToUint(x: Int): Uint {
    if x < 0 then x + TWO_TO_64 else x
  }

  function ToInt(u: Uint): Int {
    if u >= TWO_TO_63 then u - TWO_TO_64 else u
  }

  const RT_TABLE_UNSPEC: Int := 0
  const RTN_BLACKHOLE: Int := 6

  datatype Route = Route(
    dst: Option<IPNet>, table: Int, tos: Int, priority: Int, protocol: Int,
    kind: Int, gw: IP, attributes: int)

  // What Go gives a route, and an update, of which nothing is set.
  const ZERO_ROUTE := Route(None, 0, 0, 0, 0, 0, [], 0)

  predicate Equal(a: Route, b: Route) {
    && (a.dst.Some? <==> b.dst.Some?)
    && (a.dst.Some? ==> IPNetEqual(a.dst.value, b.dst.value))
    && a.table == b.table && a.tos == b.tos && a.priority == b.priority
    && a.protocol == b.protocol && a.kind == b.kind
    && IPEqual(a.gw, b.gw) && a.attributes == b.attributes
  }

  // The place a route occupies in the kernel: installing a route replaces what its slot holds.
  datatype Slot = Slot(dst: Option<NetId>, table: Int, tos: Int, priority: Int)

  // What two Equal routes have in common.
  datatype RouteId = RouteId(slot: Slot, protocol: Int, kind: Int, gw: IP, attributes: int)

  function SlotOf(r: Route): Slot {
    Slot(if r.dst.Some? then Some(Identify(r.dst.value)) else None, r.table, r.tos, r.priority)
  }

  function Id(r: Route): RouteId {
    RouteId(SlotOf(r), r.protocol, r.kind, Address(r.gw), r.attributes)
  }

  lemma IdDecidesEqual(a: Route, b: Route)
    ensures Equal(a, b) <==> Id(a) == Id(b)
  {
    if a.dst.Some? && b.dst.Some? {
      IdentityDecidesIPNetEqual(a.dst.value, b.dst.value);
    }
    AddressDecidesIPEqual(a.gw, b.gw);
  }

  lemma SameIdSameSlot(a: Route, b: Route)
    ensures Id(a) == Id(b) ==> SlotOf(a) == SlotOf(b)
  {
  }

  datatype UpdateKind = NewRoute | DelRoute | OtherUpdate

  datatype RouteUpdate = RouteUpdate(kind: UpdateKind, route: Route)

  const ZERO_UPDATE := RouteUpdate(OtherUpdate, ZERO_ROUTE)

  datatype Notification = StartOfRIB | EndOfRIB | Update(update: RouteUpdate)

  function NewNote(r: Route): Notification {
    Update(RouteUpdate(NewRoute, r))
  }

  function Updates(us: seq<RouteUpdate>): (ns: seq<Notification>)
    ensures |ns| == |us|
    ensures forall i | 0 <= i < |us| :: ns[i] == Update(us[i])
  {
    seq(|us|, i requires 0 <= i < |us| => Update(us[i]))
  }

  function News(dump: seq<Route>): (ns: seq<Notification>)
    ensures |ns| == |dump|
    ensures forall i | 0 <= i < |dump| :: ns[i] == NewNote(dump[i])
  {
    seq(|dump|, i requires 0 <= i < |dump| => NewNote(dump[i]))
  }

  function DelNote(r: Route): Notification {
    Update(RouteUpdate(DelRoute, r))
  }
}

/**
 The candidate list is a finite map from slots to routes, kept as a list: additions update the
 map, removals remove an Equal route, and the target depends on the map alone.
 */
module Candidates {
  import opened Options
  import opened IPNets
  import opened Routes
  import opened Configuration
  import opened GatewaySpec

  // The map a candidate list stands for.
  ghost function Lookup(candidates: seq<Route>, k: Slot): (found: Option<RouteId>)
    ensures found.Some? ==> found.value.slot == k
  {
    if candidates == [] then None
    else
      var last := candidates[|candidates| - 1];
      if SlotOf(last) == k then Some(Id(last)) else Lookup(candidates[..|candidates| - 1], k)
  }

  lemma {:induction false} LookupFinds(cs: seq<Route>, k: Slot)
    ensures Lookup(cs, k).Some? ==> exists i | 0 <= i < |cs| :: SlotOf(cs[i]) == k && Lookup(cs, k) == Some(Id(cs[i]))
    ensures Lookup(cs, k).None? ==> forall i | 0 <= i < |cs| :: SlotOf(cs[i]) != k
  {
    if cs != [] && SlotOf(cs[|cs| - 1]) != k {
      var rest := cs[..|cs| - 1];
      LookupFinds(rest, k);
      if Lookup(rest, k).Some? {
        var i :| 0 <= i < |rest| && SlotOf(rest[i]) == k && Lookup(rest, k) == Some(Id(rest[i]));
        assert SlotOf(cs[i]) == k && Lookup(cs, k) == Some(Id(cs[i]));
      }
    }
  }

  lemma LookupOfMember(cfg: LRG, cs: seq<Route>, i: nat)
    requires Sound(cfg, cs) && i < |cs|
    ensures Lookup(cs, SlotOf(cs[i])) == Some(Id(cs[i]))
  {
    hide FromMatch, ToMatch, SlotOf, Id, Lookup;
    LookupFinds(cs, SlotOf(cs[i]));
  }

  lemma ReplacesIsSameSlot(r: Route, c: Route)
    requires r.dst.Some? && c.dst.Some?
    ensures Replaces(r, c) <==> SlotOf(c) == SlotOf(r)
  {
    IdentityDecidesIPNetEqual(c.dst.value, r.dst.value);
  }

  lemma HasDestination(cfg: LRG, r: Route)
    requires Watched(cfg, r)
    ensures r.dst.Some?
  {
  }

  lemma {:induction false} UnreplacedIsSound(cfg: LRG, cs: seq<Route>, r: Route)
    requires Sound(cfg, cs) && r.dst.Some?
    ensures Sound(cfg, Unreplaced(cs, r))
    ensures forall c <- Unreplaced(cs, r) :: c in cs && SlotOf(c) != SlotOf(r)
  {
    hide IPNetEqual, Replaces, SlotOf;
    if cs != [] {
      var rest, last := cs[..|cs| - 1], cs[|cs| - 1];
      UnreplacedIsSound(cfg, rest, r);
      ReplacesIsSameSlot(r, last);
      var kept := Unreplaced(rest, r);
      forall i | 0 <= i < |kept| ensures kept[i] in rest && SlotOf(kept[i]) != SlotOf(last) {
        assert kept[i] in kept;
        var j :| 0 <= j < |rest| && rest[j] == kept[i];
        assert cs[j] == rest[j];
      }
    }
  }

  lemma {:induction false} UnreplacedRemovesSlot(cfg: LRG, cs: seq<Route>, r: Route, k: Slot)
    requires Sound(cfg, cs) && r.dst.Some?
    ensures Lookup(Unreplaced(cs, r), k) == if k == SlotOf(r) then None else Lookup(cs, k)
  {
    hide IPNetEqual, FromMatch, ToMatch, Replaces;
    if cs != [] {
      var rest, last := cs[..|cs| - 1], cs[|cs| - 1];
      UnreplacedRemovesSlot(cfg, rest, r, k);
      HasDestination(cfg, last);
      ReplacesIsSameSlot(r, last);
    }
  }

  // A NEWROUTE for a source is an update of the map, whichever way the list was scanned.
  lemma AddUpdatesMap(cfg: LRG, cs: seq<Route>, r: Route, k: Slot)
    requires Sound(cfg, cs) && Watched(cfg, r)
    ensures Sound(cfg, Add(cs, r)) && Add(cs, r) != []
    ensures Lookup(Add(cs, r), k) == if k == SlotOf(r) then Some(Id(r)) else Lookup(cs, k)
  {
    hide IPNetEqual, FromMatch, ToMatch, Equal, Unreplaced;
    if i :| 0 <= i < |cs| && Equal(cs[i], r) {
      IdDecidesEqual(cs[i], r);
      LookupOfMember(cfg, cs, i);
    } else {
      HasDestination(cfg, r);
      UnreplacedIsSound(cfg, cs, r);
      UnreplacedRemovesSlot(cfg, cs, r, k);
    }
  }

  // A source that is there already leaves the list as it is; any other goes behind those it does
  // not replace, which keep their order.
  lemma AddKeepsOrder(cfg: LRG, cs: seq<Route>, r: Route)
    requires Sound(cfg, cs) && Watched(cfg, r)
    ensures if exists i | 0 <= i < |cs| :: Id(cs[i]) == Id(r) then Add(cs, r) == cs
            else Add(cs, r) == OtherSlots(cs, SlotOf(r)) + [r]
  {
    hide IPNetEqual, FromMatch, ToMatch, Equal, Unreplaced, OtherSlots, Id, SlotOf;
    forall i | 0 <= i < |cs| ensures Equal(cs[i], r) <==> Id(cs[i]) == Id(r) {
      IdDecidesEqual(cs[i], r);
    }
    HasDestination(cfg, r);
    UnreplacedAreOtherSlots(cfg, cs, r);
  }

  function OtherSlots(cs: seq<Route>, k: Slot): seq<Route> {
    if cs == [] then []
    else
      var rest := OtherSlots(cs[..|cs| - 1], k);
      if SlotOf(cs[|cs| - 1]) == k then rest else rest + [cs[|cs| - 1]]
  }

  lemma {:induction false} UnreplacedAreOtherSlots(cfg: LRG, cs: seq<Route>, r: Route)
    requires Sound(cfg, cs) && r.dst.Some?
    ensures Unreplaced(cs, r) == OtherSlots(cs, SlotOf(r))
  {
    hide Replaces, SlotOf;
    if cs != [] {
      UnreplacedAreOtherSlots(cfg, cs[..|cs| - 1], r);
      ReplacesIsSameSlot(r, cs[|cs| - 1]);
    }
  }

  lemma {:induction false} WithoutIsSound(cfg: LRG, cs: seq<Route>, r: Route)
    requires Sound(cfg, cs)
    ensures Sound(cfg, Without(cs, r))
    ensures forall c <- Without(cs, r) :: c in cs && Id(c) != Id(r)
  {
    if cs != [] {
      var rest, last := cs[..|cs| - 1], cs[|cs| - 1];
      WithoutIsSound(cfg, rest, r);
      IdDecidesEqual(last, r);
      var kept := Without(rest, r);
      forall i | 0 <= i < |kept| ensures kept[i] in rest && SlotOf(kept[i]) != SlotOf(last) {
        assert kept[i] in kept;
        var j :| 0 <= j < |rest| && rest[j] == kept[i];
        assert cs[j] == rest[j];
      }
    }
  }

  // A DELROUTE for a source removes that exact route, and nothing when the slot holds another.
  lemma {:induction false} WithoutRemovesIfEqual(cfg: LRG, cs: seq<Route>, r: Route, k: Slot)
    requires Sound(cfg, cs)
    ensures Lookup(Without(cs, r), k) == if Lookup(cs, k) == Some(Id(r)) then None else Lookup(cs, k)
  {
    if cs != [] {
      var rest, last := cs[..|cs| - 1], cs[|cs| - 1];
      WithoutRemovesIfEqual(cfg, rest, r, k);
      IdDecidesEqual(last, r);
      if SlotOf(last) == k {
        NoOtherAtSlotOfLast(cfg, cs);
        assert Lookup(Without(rest, r), k).None?;
      }
    }
  }

  lemma NoOtherAtSlotOfLast(cfg: LRG, cs: seq<Route>)
    requires Sound(cfg, cs) && cs != []
    ensures Lookup(cs[..|cs| - 1], SlotOf(cs[|cs| - 1])).None?
  {
    LookupFinds(cs[..|cs| - 1], SlotOf(cs[|cs| - 1]));
  }

  // The first of the candidates with the lowest TOS and, among those, the lowest priority.
  predicate FirstMinimum(cs: seq<Route>, i: nat) {
    && i < |cs|
    && (forall j | 0 <= j < i :: cs[i].tos <= cs[j].tos && (cs[i].tos == cs[j].tos ==> cs[i].priority < cs[j].priority))
    && (forall j | i <= j < |cs| :: cs[i].tos <= cs[j].tos && (cs[i].tos == cs[j].tos ==> cs[i].priority <= cs[j].priority))
  }

  lemma {:induction false} BestIndex(cs: seq<Route>) returns (i: nat)
    requires cs != []
    ensures FirstMinimum(cs, i) && Best(cs) == Some(cs[i])
  {
    var rest := cs[..|cs| - 1];
    if rest == [] {
      i := 0;
    } else {
      i := BestIndex(rest);
      if Better(cs[|rest|], rest[i]) {
        forall j | 0 <= j < |rest| ensures Better(cs[|rest|], cs[j]) {
          assert cs[j] == rest[j];
          assert rest[i].tos <= rest[j].tos;
        }
        i := |rest|;
      } else {
        assert forall j | 0 <= j < |rest| :: cs[j] == rest[j];
      }
    }
  }

  // bestCandidateRoute returns a candidate, and none has a lower TOS, or the same and a lower priority.
  lemma BestIsLowest(cs: seq<Route>)
    ensures Best(cs).None? <==> cs == []
    ensures Best(cs).Some? ==> Best(cs).value in cs
    ensures Best(cs).Some? ==>
              forall c <- cs :: Best(cs).value.tos <= c.tos && (Best(cs).value.tos == c.tos ==> Best(cs).value.priority <= c.priority)
  {
    if cs != [] {
      var b := BestIndex(cs);
      forall c <- cs ensures cs[b].tos <= c.tos && (cs[b].tos == c.tos ==> cs[b].priority <= c.priority) {
        var j :| 0 <= j < |cs| && cs[j] == c;
        assert j < b || b <= j;
      }
    }
  }

  // It is the first of these, and nothing else.
  lemma BestIsFirstMinimum(cs: seq<Route>, i: nat)
    requires FirstMinimum(cs, i)
    ensures Best(cs) == Some(cs[i])
  {
    var b := BestIndex(cs);
    assert cs[i].tos <= cs[b].tos && cs[b].tos <= cs[i].tos;
  }

  // On a sound list the minimum is unique: any other candidate is strictly worse.
  lemma BestIsStrict(cfg: LRG, cs: seq<Route>, i: nat)
    requires Sound(cfg, cs) && i < |cs|
    ensures Best(cs).Some?
    ensures var b := Best(cs).value;
            Id(cs[i]) == Id(b) || b.tos < cs[i].tos || (b.tos == cs[i].tos && b.priority < cs[i].priority)
  {
    hide FromMatch, ToMatch, Best, SlotOf, Id;
    var b := BestIndex(cs);
    assert Watched(cfg, cs[b]) && Watched(cfg, cs[i]);
    if i > b {
      SourcesDifferByTosAndPriority(cfg, cs[b], cs[i]);
      assert cs[b].tos <= cs[i].tos;
    }
  }

  // Two lists standing for the same map choose Equal routes and build Equal targets.
  lemma TargetDependsOnMapOnly(cfg: LRG, cs: seq<Route>, ds: seq<Route>)
    requires Sound(cfg, cs) && Sound(cfg, ds)
    requires forall k :: Lookup(cs, k) == Lookup(ds, k)
    ensures cs == [] <==> ds == []
    ensures cs != [] ==> Equal(Best(cs).value, Best(ds).value)
    ensures Target(cs, cfg.to).Some? <==> Target(ds, cfg.to).Some?
    ensures Target(cs, cfg.to).Some? ==> Equal(Target(cs, cfg.to).value, Target(ds, cfg.to).value)
  {
    SameMapNonEmpty(cfg, cs, ds);
    SameMapNonEmpty(cfg, ds, cs);
    if cs == [] {
      RewriteRespectsEqual(BLACKHOLE, BLACKHOLE, cfg.to);
    } else {
      var i := BestIndex(cs);
      var j := MemberWithSameId(cfg, cs, ds, i);
      var m := BestIndex(ds);
      var n := MemberWithSameId(cfg, ds, cs, m);
      BestIsStrict(cfg, ds, j);
      BestIsStrict(cfg, cs, n);
      assert Id(cs[i]) == Id(ds[m]);
      RewriteRespectsEqual(cs[i], ds[m], cfg.to);
      IdDecidesEqual(cs[i], ds[m]);
    }
  }

  lemma SameMapNonEmpty(cfg: LRG, cs: seq<Route>, ds: seq<Route>)
    requires Sound(cfg, cs)
    requires forall k :: Lookup(cs, k) == Lookup(ds, k)
    ensures cs != [] ==> ds != []
  {
    if cs != [] {
      LookupOfMember(cfg, cs, 0);
      assert Lookup(ds, SlotOf(cs[0])).Some?;
    }
  }

  lemma MemberWithSameId(cfg: LRG, cs: seq<Route>, ds: seq<Route>, i: nat) returns (j: nat)
    requires Sound(cfg, cs) && Sound(cfg, ds) && i < |cs|
    requires forall k :: Lookup(cs, k) == Lookup(ds, k)
    ensures j < |ds| && Id(ds[j]) == Id(cs[i])
  {
    var k := SlotOf(cs[i]);
    LookupOfMember(cfg, cs, i);
    assert Lookup(ds, k) == Some(Id(cs[i]));
    LookupFinds(ds, k);
    j :| 0 <= j < |ds| && SlotOf(ds[j]) == k && Lookup(ds, k) == Some(Id(ds[j]));
  }

  lemma RewriteRespectsEqual(a: Route, b: Route, to: LRGTo)
    requires Id(a) == Id(b)
    ensures Equal(Rewrite(a, to), Rewrite(b, to))
  {
    IdDecidesEqual(a, b);
    IdDecidesEqual(Rewrite(a, to), Rewrite(b, to));
  }

  // In particular the order in which a dump lists the candidates does not matter.
  lemma TargetIgnoresOrder(cfg: LRG, cs: seq<Route>, ds: seq<Route>)
    requires Sound(cfg, cs) && Sound(cfg, ds)
    requires multiset(cs) == multiset(ds)
    ensures Target(cs, cfg.to).Some? <==> Target(ds, cfg.to).Some?
    ensures Target(cs, cfg.to).Some? ==> Equal(Target(cs, cfg.to).value, Target(ds, cfg.to).value)
  {
    forall k ensures Lookup(cs, k) == Lookup(ds, k) {
      SameMembersSameMap(cfg, cs, ds, k);
      SameMembersSameMap(cfg, ds, cs, k);
    }
    TargetDependsOnMapOnly(cfg, cs, ds);
  }

  lemma SameMembersSameMap(cfg: LRG, cs: seq<Route>, ds: seq<Route>, k: Slot)
    requires Sound(cfg, cs) && Sound(cfg, ds) && multiset(cs) == multiset(ds)
    ensures Lookup(cs, k).Some? ==> Lookup(cs, k) == Lookup(ds, k)
  {
    LookupFinds(cs, k);
    if Lookup(cs, k).Some? {
      var i :| 0 <= i < |cs| && SlotOf(cs[i]) == k && Lookup(cs, k) == Some(Id(cs[i]));
      assert cs[i] in multiset(ds);
      var j :| 0 <= j < |ds| && ds[j] == cs[i];
      LookupOfMember(cfg, ds, j);
    }
  }
}

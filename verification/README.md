# A verified model of Last-Resort Gateway

Last-Resort Gateway watches the kernel's routing tables and, for each configured gateway, keeps a
copy of the best matching route at a higher metric, so that traffic still has somewhere to go when
the original disappears. Two state machines do the work:

- the *synchroniser* (`netlink/root.go`) subscribes to route changes, dumps the IPv4 and the IPv6
  routes, then follows the live changes, and starts over when the live stream dies;
- one *gateway* per configuration entry (`gateways/gateway.go`) consumes what the synchroniser
  notifies, keeps the list of candidate routes, and installs the rewritten best of them.

This project models both, the kernel they share, and the loop between them, and proves what they
promise over every run. `dafny verify dfyconfig.toml` checks all of it.

## How the model is laid out

| file | contents |
|---|---|
| `Options`, `IPNets`, `Routes` | values: addresses and masks, routes up to `Equal`, updates, notifications |
| `Configuration` | the "from" and "to" blocks, their matchers, the two-pass decoding |
| `GatewaySpec` | what one gateway computes, as functions on a state |
| `Gateway` | the gateways as mutable objects over shared route objects, proved against `GatewaySpec` |
| `Candidates`, `GatewayRuns` | the candidate list as a map; what every run of a gateway keeps |
| `KernelLog`, `CatchUp` | the kernel as the history of its changes; snapshot plus replay |
| `SyncSpec` | the branches of the synchroniser's loop, as functions |
| `Synchroniser` | the synchroniser as a mutable object over shared channels, proved against `SyncSpec` |
| `World`, `SyncInvariant`, `SyncRuns` | the synchroniser among the kernel, the subscription and the dump goroutines: all interleavings, capacities and failures |
| `Recovery` | rescans inevitably complete |
| `EndToEnd` | synchroniser and gateway together |
| `ClosedLoop` | gateway and kernel feeding each other, every change of the kernel being delivered |
| `WholeSystem` | kernel, synchroniser and a gateway that installs into that kernel, with every loss and rescan |
| `TrimSpaces` | the rewriting helper of the tests |

Two routes are compared by `Routes.Equal`; the comparison of the netlink library is not part of
this model. The model's version compares the fields the daemon reads the way the daemon compares
them, and one further field stands for all the others. Everything proved about it goes through
`Id`, which maps two routes to the same value exactly when they are `Equal`.

## What is assumed of the surroundings

- A slot (destination, table, TOS, priority) holds one route; the kernel announces the removal of a
  route only when that route is there; a dump of one family is taken at one moment, in any order.
- Between two closures of the live channel, the subscription delivers the changes in order. What
  has left the kernel but is not on the channel waits in an unbounded queue; a death of the
  subscription may lose all of it.
- `ClosedLoop` alone assumes that nothing is lost or overtaken: every change of the kernel is queued
  for the gateway. `WholeSystem.LiveSystemIsLoop` proves that the whole system behaves so for as long
  as a subscription lives; `WholeSystem` makes no such assumption itself.
- No route is in table 0, where a theorem says so, and no gateway's target is either.
  `SyncRuns.DeliveryNeedsTables` proves that this cannot be dropped: a dump listing such a route is
  not delivered in full in any run.

## Where the code does not do what one might expect

- **A pending installation can find no route.** If the target is deleted while its installation is
  pending and nothing can replace it, the next tick dereferences a missing route
  (`GatewayRuns.DisarmedRunPanics`). `RunPanicsExactly` proves which runs do.
- **The blackhole replaces a known last-resort route.** `docs/configuration.rst:197-202` promises it
  only in the absence of one; the code installs it whenever no candidate is left
  (`GatewayRuns.BlackholeReplacesLastKnown`). Retention is therefore stated without blackhole.
- **A source can be masked.** When a route that is no source replaces a source in its slot, the
  gateway ignores the update and keeps the vanished source. `CatchUp.ScanCatchesUpExactly` proves
  that a gateway shows the kernel's sources if and only if no masked source has stayed so, and
  `CatchUp.OwnCopyMasksSource` that the daemon's own copy can do it.
- **The copy can be usurped.** When a route that is no target takes the copy's slot, the gateway does
  not notice that its copy is gone (`ClosedLoop.UsurpedCopyStaysLost`). Nothing else that arrives
  misinforms it (`ClosedLoop.ArrivalKeepsInformedExactly`).
- **A lost deletion of the last-resort route is not repaired.** A rescan does not tell the gateway
  that its copy is gone. It is installed again exactly when the dump lists a source, better than
  all those before it, with another copy than the one believed in
  (`EndToEnd.LostDeletionIsRepairedExactly`), which never happens with a single source
  (`EndToEnd.SingleSourceStaysMissing`). Together, these two are all that can go wrong with a copy
  (`WholeSystem.RestingCopyIsThereExactly`).
- **The copy with a former TOS stays.** The target matcher ignores the TOS, which belongs to the
  slot: when it changes, the former copy remains beside the new one
  (`ClosedLoop.CopyWithFormerTosStays`).

## Model

| member | source | states |
|---|---|---|
| IPNets.IdentityDecidesIPNetEqual | helpers/misc.go:8-12 | the network comparison is equality of prefix length and 16-byte address, hence an equivalence |
| IPNets.IPNetEqualOnPrefixes | helpers/misc.go:8-12 | on contiguous masks it is "same prefix length and same address", across 4- and 16-byte forms |
| IPNets.MappedAddresses | helpers/misc.go:8-12 | an IPv4 address equals its 16-byte form with ten zero bytes and two of 0xFF before it, nothing else of 16 bytes is an IPv4 address, and 0.0.0.0 is not :: |
| IPNets.ScatteredMaskSize | helpers/misc.go:8-12 | a mask with a one after a zero counts as length 0 |
| Configuration.Unmarshal | gateways/config.go:55-110 | the three errors exactly (a prefix is missing if none or the all-ones one was written); otherwise "from" and "to" are of one family and "to" inherits prefix and table from "from", protocol 254 and metric 4294967295, "from" having table 254 by default |
| Configuration.MatchersReadFields | gateways/config.go:112-128 | what each matcher asks of prefix, table, protocol and metric, as an equivalence on the numbers |
| Configuration.MatchersRespectEqual | gateways/config.go:112-128 | both matchers give the same answer on Equal routes |
| Configuration.SourcesDifferByTosAndPriority | gateways/config.go:112-119 | two routes selected by one "from" block occupy one slot iff TOS and priority agree |
| Configuration.TargetsDifferByTos | gateways/config.go:121-128 | two routes recognised by one "to" block occupy one slot iff TOS agrees |
| Candidates.AddUpdatesMap | gateways/gateway.go:213-237 | adding a source keeps one route per slot, all of them sources, and is a map update, through the early return and the replacement alike |
| Candidates.AddKeepsOrder | gateways/gateway.go:213-237 | a known source leaves the list alone; any other goes behind those of other slots, in their order |
| Candidates.WithoutRemovesIfEqual | gateways/gateway.go:198-211 | removal clears a slot iff it holds an Equal route |
| Candidates.BestIsLowest | gateways/gateway.go:283-294 | no candidate has a lower TOS than the one returned, or the same TOS and a lower priority |
| Candidates.BestIsFirstMinimum | gateways/gateway.go:283-294 | and the first such candidate, on the numbers, is the one returned |
| Candidates.BestIsStrict | gateways/gateway.go:283-294 | on reachable lists every other candidate has a higher TOS, or the same and a higher priority |
| Candidates.TargetDependsOnMapOnly | gateways/gateway.go:296-321 | two lists standing for the same map build Equal targets |
| Candidates.TargetIgnoresOrder | gateways/gateway.go:283-321 | a permutation of the candidates builds an Equal target |
| GatewayRuns.UpdateRefinesMap | gateways/gateway.go:142-195 | a whole update step on the candidate map: write, conditional removal, or nothing |
| GatewayRuns.TargetMatchesTo | gateways/gateway.go:296-321 | every target is recognised by the target matcher, the int conversions losing nothing |
| GatewayRuns.TargetWithoutCandidate | gateways/gateway.go:299-307 | without a candidate there is a target iff a blackhole is asked for, of type 6 and TOS 0, with the configured fields |
| GatewayRuns.TargetCopiesFirstMinimum | gateways/gateway.go:296-321 | the target is the first minimum in all fields but the four that are configured |
| GatewayRuns.EchoChangesNothing | gateways/gateway.go:147-159 | the echo of the target touches no candidate, starts no installation, and equals no candidate |
| GatewayRuns.StepTracks | gateways/gateway.go:134-196 | from any state, matched updates and EndOfRIB leave the last-resort route Equal to the target; StartOfRIB does so exactly unless a blackhole becomes the target; other updates do nothing |
| GatewayRuns.ChoicesAreCountedExactly | gateways/gateway.go:241-281 | a change is counted and an installation scheduled iff the gateway ends up with another route than the one it had or was shown; no notification cancels or attempts one |
| GatewayRuns.NewBestIsCopied | gateways/gateway.go:213-262 | a best source replaced by one with another gateway, type or attribute is copied |
| GatewayRuns.CandidatesAreAsConfigured | gateways/config.go:112-119 | in every run every candidate has the prefix, table and, where configured, protocol and metric of the "from" block, and is no target |
| GatewayRuns.ConfiguredSourceIsTaken | gateways/gateway.go:166-189 | conversely every such route that appears becomes the candidate of its slot, and one that disappears is not it |
| GatewayRuns.ConfiguredTargetIsSeen | gateways/gateway.go:147-159 | a route with the fields of the "to" block that appears or disappears changes no candidate, and is believed in or given up unless a target is chosen |
| GatewayRuns.RunTracks | gateways/gateway.go:241-262 | without blackhole, tracking holds after every notification of every run |
| GatewayRuns.CompleteScanTracks | gateways/gateway.go:139-141 | with or without blackhole, any run that ends with EndOfRIB and updates tracks |
| GatewayRuns.OnceKnownAlwaysKnown | README.md:11-15 | without blackhole and without deletion of the target, a known last-resort route is never forgotten |
| GatewayRuns.LastKnownIsKept | README.md:11-15 | the last-resort route at the end of a run is the target last chosen or, with no candidate, the target last shown, whichever came later |
| GatewayRuns.BlackholeReplacesLastKnown | gateways/gateway.go:299-307 | when the last candidate goes, the route is kept iff no blackhole is configured or it already is that blackhole |
| GatewayRuns.TicksDoNotDecide | gateways/gateway.go:72-124 | candidates, last-resort route and number of changes depend on the notifications alone, not on the ticks or the answers of AddRoute |
| GatewayRuns.EveryRunIsAccounted | gateways/gateway.go:93-121 | installs plus a pending one never exceed recorded changes; every route handed to AddRoute has the prefix, table, protocol and metric of the "to" block |
| GatewayRuns.AttemptsAreOfBeliefs | gateways/gateway.go:93-121 | in every run a tick fires on a pending installation by handing AddRoute the very route the notifications so far made the gateway believe in, stays pending iff it is refused, and nothing else attempts one |
| GatewayRuns.AttemptsAreOfTargets | gateways/gateway.go:93-121 | so, without blackhole or after a complete scan, the target if there is one |
| GatewayRuns.StepDisarmsExactly | gateways/gateway.go:150-154 | a step leaves a pending tick without a route iff it deletes the target with the tick pending and no replacement |
| GatewayRuns.ArmedRunsDoNotPanic | gateways/gateway.go:93-97 | a run without such a step never handles a tick with no route |
| GatewayRuns.RunPanicsExactly | gateways/gateway.go:93-97 | a run panics iff a tick fires after a step that disarmed the gateway, with no NEWROUTE of a target or a source in between |
| GatewayRuns.DisarmedRunPanics | gateways/gateway.go:93-97 | for every gateway without blackhole and every source of it outside its copy's slot, a history the kernel can have after which it panics: source and copy appear, then both go |
| KernelLog.SourcesAreOfOneFamily | gateways/config.go:112-119 | all sources of a gateway are of its prefix's family, so the other family's dump cannot contain any |
| Gateway.BestCandidateRoute | gateways/gateway.go:285-294 | the loop returns a candidate of the lowest TOS and, among those, the lowest priority, the one the specification selects |
| Gateway.TargetRoute | gateways/gateway.go:299-321 | the target is a fresh object, and no existing route object is modified |
| Gateway.LastResortGateway.RemoveCandidateRoute | gateways/gateway.go:201-211 | the filtering loop refines the specified removal; only the list field changes |
| Gateway.LastResortGateway.AddCandidateRoute | gateways/gateway.go:218-237 | the loop with its early return refines the specified addition |
| Gateway.LastResortGateway.InstallCandidateRoute | gateways/gateway.go:241-263 | choice, comparison, counter and tick refine the specified installation |
| Gateway.LastResortGateway.ProcessNotification | gateways/gateway.go:134-196 | a notification takes the gateway's state through one specified step and modifies no route object |
| Gateway.LastResortGateway.HandleTick | gateways/gateway.go:93-121 | AddRoute is handed the current route, once; the tick stays pending iff AddRoute fails |
| Gateway.LastResortGateway.Iterate | gateways/gateway.go:77-123 | one iteration of the loop is one action of the runs above |
| Gateway.LastResortGateway.Dequeue | gateways/gateway.go:87-91 | taking a notification is one specified step of the whole state, tick included, and the state stays the one that the gateway's own actions lead to |
| Gateway.LastResortGateway.TakeTick | gateways/gateway.go:93-121 | so does handling a tick |
| Gateway.Component.constructor | gateways/root.go:41-45 | one gateway per configuration entry, in order, all distinct |
| Gateway.Component.Publish | gateways/root.go:46-53 | every gateway gets the same message, once, behind what it has queued |
| Gateway.Component.Process | gateways/gateway.go:87-91 | one gateway makes one step of its whole state on the value that was published; every gateway stays where its own actions lead |
| Gateway.Component.Fire | gateways/gateway.go:93-121 | one gateway hands its current route to AddRoute, and keeps its tick iff it is refused; every gateway stays where its own actions lead |
| Gateway.Component.Isolation | gateways/root.go:46-58 | a gateway that emptied its queue is where its own notifications and ticks led it, the former being exactly what was published, and decided as if it alone had received them |
| CatchUp.DumpLoads | gateways/gateway.go:174-184 | reading a dump writes exactly the slots of the sources it lists |
| CatchUp.DumpsLoad | netlink/root.go:143-158 | after StartOfRIB, both dumps and EndOfRIB, the candidates are what the dump of the gateway's family saw, whatever preceded |
| CatchUp.ReplayBehindDump | netlink/root.go:131-135 | replaying events older than the dump: each slot shows the kernel at that event or at the dump |
| CatchUp.ReplayAheadOfDump | netlink/root.go:131-135 | past the dump, every moment shows the kernel's state iff no source is masked |
| CatchUp.SyncBreaksByMasking | gateways/gateway.go:191-193 | one event keeps a gateway in sync iff it masks none of its sources |
| CatchUp.ReplayedSlot | netlink/root.go:131-135 | for any log, slot by slot: past the dump, or once the replay wrote it, a slot shows the kernel's source unless it is stale, and a stale one shows a route the kernel no longer has |
| CatchUp.ReplayIsExact | netlink/root.go:131-135 | the replay ends in sync iff no event masked a source the gateway knew and that was not shown again since |
| CatchUp.ScanCatchesUp | netlink/root.go:130-158 | subscribe, dump IPv4, dump IPv6, replay from the subscription: if no source is masked since the subscription, the candidates are the kernel's sources |
| CatchUp.ScanCatchesUpExactly | netlink/root.go:130-158 | for any log, any three moments in that order and any end past the gateway's own dump: the candidates are the kernel's sources iff no event since the subscription left a stale one |
| CatchUp.OwnCopyMasksSource | gateways/gateway.go:309-318 | a source in its own target's slot is masked by the copy and stays a candidate |
| Synchroniser.RealComponent.Transition | netlink/root.go:127-163 | new channels, notifications, dump goroutine and phase of each transition, and what a failure leaves behind |
| Synchroniser.RealComponent.InjectRoutes | netlink/root.go:81-123 | a goroutine is started iff the dump succeeded |
| Synchroniser.RealComponent.OnSubscribed | netlink/root.go:195-200 | the first transition is retried until it succeeds |
| Synchroniser.RealComponent.OnTick | netlink/root.go:183-189 | the delayed transition stays pending iff it fails |
| Synchroniser.RealComponent.OnClosed | netlink/root.go:203-261 | a closed channel is dropped; transition at once, or a delayed one after failure or from the live phase |
| Synchroniser.RealComponent.OnUpdate | netlink/root.go:202-266 | a received route of another table than 0 is notified and nothing else changes; table 0, which a closed channel yields too, is taken for the end of the channel |
| Synchroniser.RealComponent.SendNext | netlink/root.go:103-117 | a dump goroutine writes the channel the component reads at that moment, and only if it is open |
| Synchroniser.RealComponent.CloseUpdates | netlink/root.go:118-121 | and closes it when it has sent everything |
| SyncInvariant.TransitionWorks | netlink/root.go:127-163 | from a quiet world every transition leads into the invariant, or leaves phase and debt unchanged |
| SyncRuns.EveryRunKeepsInv | netlink/root.go:165-268 | the invariant over all interleavings, capacities and failures |
| SyncRuns.NotificationsAreConserved | netlink/root.go:102-121 | notified plus in flight equals what the rounds owe: both dumps, in order, nothing lost or duplicated; no write or close of a closed channel |
| SyncRuns.NotificationsFollowGrammar | netlink/root.go:127-163 | the subscriber sees a prefix of (StartOfRIB+ updates EndOfRIB updates)\*, and a round ends or fails before the next starts |
| SyncRuns.SilentWhileWaiting | netlink/root.go:244-260 | while a transition is delayed nothing can be sent or received |
| SyncRuns.RetriesRepeatNothing | netlink/root.go:149-154 | a failed transition keeps the phase; a failed IPv6 dump is retried without StartOfRIB and without the IPv4 dump |
| SyncRuns.ReceiveNotifiesExactly | netlink/root.go:202-266 | a route is notified iff its table is not 0; the zero update of a closed channel and a route in table 0 notify none and cause a transition, at once or delayed |
| SyncRuns.EndOfChannelActs | netlink/root.go:203-261 | the end of a dump is followed at once by the next transition, delayed only if it fails; the end of the live channel only by a delayed one |
| SyncRuns.RescansAreDelayed | netlink/root.go:244-260 | in every run a scan begins with the first subscriber or a delayed transition and with nothing else |
| SyncRuns.TableZeroIsNeverDelivered | netlink/root.go:203-207 | in no run of the model, with or without routes in table 0, is one notified |
| SyncRuns.DeliveryNeedsTables | netlink/root.go:203-207 | so delivery in full implies that the dumps had none |
| Recovery.NeverDeadlocked | netlink/root.go:102-121 | on the way to recovery some component or goroutine can always step, for every capacity including none |
| Recovery.WorkGetsCloser | netlink/root.go:202-266 | each such step decreases phase rank, then unsent routes, channel contents and open channels |
| Recovery.RecoveryIsInevitable | netlink/root.go:244-260 | once the live channel is closed, even during a dump, every schedule reaches the end of a new scan in finitely many steps |
| Recovery.ScansInevitablyEnd | netlink/root.go:148-158 | a scan whose first dump was made always reaches its EndOfRIB |
| EndToEnd.GatewaysShowTheKernel | netlink/root.go:130-158 | in every run of the synchroniser, once the live events delivered reach the dump of the gateway's family: a gateway that processed all notifications has exactly the kernel's sources as of the last event delivered, iff none has gone stale in this round |
| EndToEnd.GatewaysTrackTheirBest | gateways/gateway.go:139-141 | and its last-resort route is the rewritten best of its candidates, caught up or not |
| EndToEnd.DrainedGatewaysAreCurrent | netlink/root.go:155-158 | with everything delivered, that is the kernel's present state, whatever was lost in earlier rounds, iff no source has gone stale in this one |
| EndToEnd.LostDeletionIsRepairedExactly | gateways/gateway.go:136-141 | a rescan that lists no target, with none pending, schedules an installation iff some source of the dump, better than all the sources before it, has another copy than the route believed in, or the dump lists no source and a blackhole is wanted that is not believed in; otherwise it changes neither route nor counter |
| EndToEnd.SingleSourceStaysMissing | gateways/gateway.go:251-255 | with a single source that has its copy it never does, blackhole or not |
| ClosedLoop.ArrivalKeepsInformedExactly | gateways/gateway.go:142-195 | of all kernel changes and scan marks that can arrive, exactly a non-target NEWROUTE in the slot of a copy the gateway counts on makes it misinformed |
| ClosedLoop.UsurpedCopyStaysLost | gateways/gateway.go:191-193 | a route the gateway does not watch takes the slot of its idle copy: the update is processed, nothing is scheduled, the copy is gone |
| ClosedLoop.LoopRunsAreInformedExactly | gateways/gateway.go:72-124 | in every run and for every slot: at all moments the last queued notice is what the kernel holds, and with none and no pending tick the kernel holds the believed route, iff no arrival usurped the slot |
| ClosedLoop.LoopSettles | gateways/gateway.go:241-281 | an informed loop, left alone, ends under every schedule and however often AddRoute refuses with an empty queue, no tick, and the kernel holding the believed route, which is the target if there is one, iff nothing queued disarms the gateway |
| ClosedLoop.EveryReachableLoopSettles | gateways/gateway.go:72-124 | the same from every state of every run, whatever is queued and stale, if no arrival usurped a slot the gateway may end on and it will believe in its target once the queue is processed |
| ClosedLoop.LoopsWithoutBlackholeSettle | gateways/gateway.go:72-124 | without blackhole, from every state of every run that usurped nothing: on the rewritten best of the remaining candidates, or on the last route known when none remains, iff nothing queued disarms the gateway |
| ClosedLoop.CopyWithFormerTosStays | gateways/gateway.go:309-318 | an installation leaves a different copy in the kernel iff its TOS differs |
| WholeSystem.TurnKeepsOk | gateways/gateway.go:93-121 | every step of kernel, synchroniser and gateway, with AddRoute writing the kernel's history, keeps the belief founded: the kernel held that route at some moment, and nothing later about its slot has been processed |
| WholeSystem.EverySystemIsOk | gateways/gateway.go:72-124 | so in every run of the whole system, with every loss, failure and delay |
| WholeSystem.NextGrows | netlink/root.go:127-163 | the synchroniser only appends to what its rounds owe, and never changes what an earlier notification accounts for |
| WholeSystem.RoundTells | netlink/root.go:130-158 | when the last event about a slot is a target's, shown or since the subscription, the round's last word about the slot is what the kernel holds |
| WholeSystem.GatewaysAreInformedExactly | netlink/root.go:130-158 | following a live subscription, whatever was lost before: the gateway is right about a copy it reckons with iff the last event about the slot was a target's and no deletion from before the subscription |
| WholeSystem.RestingCopyIsThereExactly | README.md:11-15 | with everything delivered and processed and no tick pending, the kernel holds the believed route iff that is so |
| WholeSystem.LiveSystemIsLoop | gateways/root.go:46-58 | while the subscription lives, each step of the whole system is a move of the loop or brings an update nearer |
| WholeSystem.LiveSystemsSettleExactly | gateways/gateway.go:241-281 | from every live moment of every run, blackhole or not, informed about the slots it may end on: the whole system inevitably comes to rest, the kernel holding the believed route, the rewritten best candidate if there is one, iff nothing on its way disarms the gateway |
| WholeSystem.RestingSystemIsRightExactly | README.md:11-15 | at rest with no stale source, the kernel holds the rewritten best of the sources it holds itself iff the last event about that copy's slot was a target's and no deletion from before the subscription |
| TrimSpaces.TrimSpaces | helpers/tests.go:13-24 | the loop terminates, on (length, tabs), at the fixpoint of the four replacements, trimmed: no tab, no double space, no space beside a newline or white space at the ends, and the input's words and inner line ends |
| TrimSpaces.PassIsIdentityExactly | helpers/tests.go:17-20 | the four replacements compose to the identity iff each of their patterns is absent; otherwise the measure decreases |
| TrimSpaces.TrimSpacesNormalises | helpers/tests.go:11-24 | the result has no tab, no double space, no space beside a newline and no Unicode white space at its ends, the input's words and inner line ends, and is left alone by a second call |

## Left out

- YAML syntax and the lookup of names in `rt_tables` and `rt_protos`: a configuration starts as the fields that were written, identifiers below 256 and metrics of 32 bits.
- Real netlink sockets: their calls succeed or fail freely, and the kernel is the history of its changes.
- Backoff durations, the cure tick and elapsed-time log levels: a tick is a step that may happen while it is pending.
- The refusal of an empty list of gateways (gateways/config.go:43-54): one gateway's configuration is decoded.
- Metrics, logging, crash reporting, the daemon's life cycle and shutdown, the command line.
- Loop variables captured by closures in `Start` (gateways/root.go:42-57): one gateway and one goroutine per configuration entry is modelled, as Go 1.22 and later behave.
- Several routes in one slot, as IPv6 multipath routes can appear; the code itself marks this case as open (gateways/gateway.go:213-217).
- Subscriptions orphaned by a failed first dump: nothing they write is ever read, so they do not appear.
- Gateway.Component.Publish: the 100-entry capacity of a gateway's channel is not modelled; a full one only delays the synchroniser, since a gateway never waits for it.
- Recovery.RecoveryIsInevitable: the fairness of the Go scheduler is not modelled; the statement is that the components can always step and that finitely many of their steps suffice, whatever happens around them.
- ClosedLoop.LoopSettles: AddRoute refuses finitely often between two steps; a kernel that refuses for ever is not modelled as a schedule. The same holds of WholeSystem.LiveSystemsSettleExactly.
- Synchroniser.RealComponent.SendNext: a goroutine blocked in its select keeps the channel it saw on entering it; the model takes the channel read at the moment of the send. The two differ only when the component has left a channel that still has a writer, which takes a route in table 0.
- EndToEnd.GatewaysShowTheKernel: the gateway's queue does not appear, the statement is about a gateway that has processed what was notified; WholeSystem has the queue.

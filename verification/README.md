# Alibaba Cloud Karpenter provider: a verified model of its decisions

The provider decides which requests share an ECS call, where a node is launched, what is offered to
the scheduler, when a node has drifted, and when an ECSNodeClass is ready. This project models those
decisions in Dafny and proves what they keep over every input and every run. The cloud and the
Kubernetes API are arbitrary: error oracles, row lists, tag maps, clocks and scheduling choices are
parameters, so the theorems hold for every answer they can give.

`dafny verify dfyconfig.toml` checks everything.

## The parts

| files | what they model |
|---|---|
| `BatchWindow`, `WindowRuns`, `WindowTiming` | one batch window: its critical sections, every run of them, and their timing |
| `ResultDelivery`, `RunInstancesExecutor`, `BatchKeys` | the executor, the capacity-1 result channels and the key that decides who shares a batch |
| `WindowedBatcher`, `BatcherRuns`, `BatchedLaunches` | the batcher with its registry, its janitor and concurrent callers, and what its batches launch |
| `Requirements`, `LaunchChoices`, `Launching`, `LaunchPlans`, `CapacityErrors` | the launch fallback over instance types and vSwitches, driven by classified errors |
| `NodeDrift`, `ProviderIDs`, `ReadyNodeClass` | Create and IsDrifted, and what readiness promises to Create |
| `Inventory`, `InstanceTypes`, `Offerings` | stock rows, instance types, filtering and offerings |
| `NodeClassStatus` | the status controller and every run of it |
| `TagBatches`, `Tagging`, `TtlCache` | tags cut into batches, tag reconciliation, the expiring cache |
| `NodeClassDisks`, `SecurityGroups`, `VSwitches`, `VSwitchKeys`, `LabelValues`, `Ordering`, `Wrappers` | canonical forms, defaulting and the library functions they use |

Code that changes state step by step is a class or a loop proved against a specification function or
relation; the theorems are about those specifications. Protocols (windows, channels, the batcher, the
cache, reconciles) are state machines whose steps are the critical sections, in any order.

## Where the code differs from what it says

- The comment at `pkg/batcher/instance.go:219` says tags are sorted; they are hashed in request order, so
  reordering changes the key unless all tags are written alike (`BatchKeys.TagOrderMatters`).
- The batch key does not decide the configuration. Requests with different counts of groups, disks and
  tags can write the same bytes (`BatchKeys.DifferentCountsCollide`), and so can requests whose tags
  differ in where their equals sign is (`BatchKeys.DifferentTagsCollide`): all of a batch then gets the
  tags of its first request. A request is kept apart from every other configuration with its counts
  exactly when none of its tags has an equals sign (`BatchKeys.OnlyPlainTagsKeepApart`); for two requests
  it is enough that no tag key has one.
- `Close` is documented to flush pending items. During a flush it does not; an item can then stay pending
  for ever. No run does that exactly when every Execute is shorter than the longer of the two durations
  (`WindowTiming.NothingStrandedIffExecuteBelowBoth`), and maxDuration is met exactly when every Execute is
  shorter than maxDuration (`WindowTiming.PunctualIffExecuteBelowMax`).
- The vSwitch cache key prints addresses instead of IDs and zones, and does not separate tags from each
  other or terms from each other. So a hit need not be for the same terms; it is, whatever was asked
  before, exactly for terms without IDs and zones that have no tags at all, or are one term with one tag
  that has no further colon and does not look like the seam between two terms
  (`VSwitchKeys.PrintsAloneIffUnambiguous`).
- Only the first zone requirement chooses vSwitches; `LaunchChoices.ZonesRespected` says exactly when
  that meets all of them.
- A zone In or Exists requirement lets a type disappear when stock runs out; nothing else does
  (`Offerings.OnlyZoneDemandsDropTypes`).
- `Default` adds a system disk to a spec with a launch template, which validation then refuses
  (`NodeClassDisks.DefaultKeepsValidity`).
- A provider ID is read back correctly exactly when the instance ID has no dot
  (`ProviderIDs.ProviderIDRoundTrip`).

## Model

| member | source | states |
|---|---|---|
| BatchWindows.BatchWindow.AddItem | pkg/batcher/window.go:76-100 | a closed window refuses and changes nothing; otherwise the stamped item goes last, the first one starts both timers, and later ones set the idle timer to idleDuration from now and leave the max timer alone |
| BatchWindows.BatchWindow.FlushIdle | pkg/batcher/window.go:103-110 | the idle callback flushes unless a flush is in progress |
| BatchWindows.BatchWindow.FlushMax | pkg/batcher/window.go:113-120 | the max callback flushes under the same condition |
| BatchWindows.BatchWindow.FlushLocked | pkg/batcher/window.go:123-175 | all pending items become the batch in flight, timers and started are reset; nothing without items or during a flush |
| BatchWindows.BatchWindow.GoroutineEnds | pkg/batcher/window.go:150-155 | the goroutine that ends removes its batch and clears flushInProgress |
| BatchWindows.BatchWindow.CloseWindow | pkg/batcher/window.go:178-190 | Close is idempotent; outside a flush all pending items become the batch in flight, during one they stay pending |
| WindowRuns.EveryRunConserves | pkg/batcher/window.go:76-190 | on every run the ended batches, the batch in flight and the pending items are the accepted items in order; at most one batch in flight, none empty; started, pending, idle timer and max timer agree |
| WindowRuns.EveryAddRestartsIdleTimer | pkg/batcher/window.go:84-97 | on every run with pending items the idle timer is due idleDuration after the last of them was added, the max timer maxDuration after the first was |
| WindowRuns.FlushTakesAllPending | pkg/batcher/window.go:123-175 | a batch is exactly the pending items of one moment, and only a timer or Close starts one |
| WindowRuns.ClosedAcceptsNothing | pkg/batcher/window.go:76-82 | after Close no continuation of the run accepts anything |
| WindowTiming.RunStaysOnTime | pkg/batcher/window.go:76-190 | the timing invariant holds on every timed run, stale callbacks included |
| WindowTiming.TimersStartBatchesOnTime | pkg/batcher/window.go:84-120 | on every timed run a batch started by the idle timer starts exactly idleDuration after the last item the window accepted, which it holds, one started by the max timer exactly maxDuration after its first item |
| WindowTiming.AddRearmsIdleTimer | pkg/batcher/window.go:87-97 | on every timed run an Add to a window that is not closed leaves an armed idle timer idleDuration ahead, also when the earlier one expired during a flush, and does not touch a running max timer |
| WindowTiming.PunctualIffExecuteBelowMax | pkg/batcher/window.go:84-120 | for all durations: on every run in which each Execute takes at most B, Close in mid-flush included, no item is pending longer than maxDuration after the Add that opened its window, iff B < maxDuration |
| WindowTiming.NothingUnattendedIffExecuteBelowBoth | pkg/batcher/window.go:103-190 | for all durations: no such run leaves pending items, in an open or a closed window, without an armed timer iff B is below the longer of the two durations |
| WindowTiming.NothingStrandedIffExecuteBelowBoth | pkg/batcher/window.go:103-190 | the same for closed windows, where nothing will be added any more |
| WindowTiming.EveryItemIsDoneInTime | pkg/batcher/window.go:84-175 | with B < maxDuration every item accepted more than maxDuration + B ago is in a batch that has ended |
| WindowTiming.BoundedExecuteMeetsMaxDuration | pkg/batcher/window.go:84-97 | with B < maxDuration every pending item is at most maxDuration old |
| WindowTiming.MaxTimerLostIffIgnored | pkg/batcher/window.go:113-120 | pending items have no max timer left iff at some event of the run it expired during a flush and no batch has started since; only then can they be overdue |
| WindowTiming.StrandedForEver | pkg/batcher/window.go:178-190 | a closed window whose timers have both fired keeps its items on every continuation without a stale callback |
| WindowTiming.StrandStrands | pkg/batcher/window.go:178-190 | for all durations and every bound not below the longer one, a run with Close during a flush that strands an item |
| WindowTiming.OverdueIsLate | pkg/batcher/window.go:113-120 | for all durations and every bound not below maxDuration, a run with an overdue item |
| ResultDelivery.RunKeepsSound | pkg/batcher/instance.go:67-128 | the delivery invariant holds on every interleaving of callers, executor, broadcast and receivers |
| ResultDelivery.ExecutorNeverBlocks | pkg/batcher/instance.go:67-128 | no send of Execute ever finds a full channel |
| ResultDelivery.EveryWaiterGetsItsOwnResult | pkg/batcher/window.go:150-173 | each waiter of an executed batch has read, or reads first, the result for its own position, whatever the error broadcast does |
| ResultDelivery.EveryWaiterGetsItsInstance | pkg/batcher/instance.go:67-128 | on every run, once the result for position j of a call has been sent, that waiter has read, or finds as the only content of its channel, instance ids[j] of the answer if there is one, and a failure otherwise |
| ResultDelivery.NothingElseIsEverRead | pkg/batcher/instance.go:295-318 | whatever a waiter has read is what Execute sent it |
| ResultDelivery.AnswersAreFinal | pkg/batcher/window.go:158-172 | an answer once sent stays the waiter's answer on every continuation |
| ResultDelivery.ExactlyTheReturnedIdsSucceed | pkg/batcher/instance.go:98-127 | exactly min(ids, items) waiters succeed: waiter i gets ID i if there is one, and every other a failure; Execute returns an error when ECS refuses or returns too few IDs, and only then |
| ResultDelivery.NoInstanceGivenTwice | pkg/batcher/instance.go:98-127 | on every run in which ECS never returns an ID twice, no two waiters read the same instance, of one batch or of two |
| RunInstancesExecutors.Execute | pkg/batcher/instance.go:67-128 | one call for the first item's request with the batch size as amount; if ECS answers with IDs, channel i holds instance ids[i] for every i below their number and a failure beyond it, with an error iff there are too few; if it refuses, every channel holds the wrapped refusal, which is also returned |
| RunInstancesExecutors.RunBatch | pkg/batcher/window.go:150-173 | the same after the broadcast of the error: every channel still holds exactly the result of its position |
| BatchedLaunches.ExecutedHaveOneKey | pkg/batcher/instance.go:287-313 | on every run of the batcher in which items are added under the keys of their requests, the requests of an executed batch have one key |
| BatchedLaunches.EveryWaiterGetsItsOwnConfiguration | pkg/batcher/instance.go:67-258 | on every such run, for every executed batch and waiter, the request launched has the configuration of the waiter's own iff their counts of groups, disks and tags agree, for a digest without collisions, NUL-free fields and tag keys without an equals sign |
| BatchKeys.ComputeRunInstancesBatchKey | pkg/batcher/instance.go:162-231 | the key hashes exactly the NUL-terminated stream of the keyed fields, groups in canonical order |
| BatchKeys.StreamDecodes | pkg/batcher/instance.go:164-168 | a stream of NUL-free fields is uniquely decodable |
| BatchKeys.NormalizeBoolDecidesMeaning | pkg/batcher/instance.go:243-258 | two spellings are normalised alike exactly when they mean the same boolean |
| BatchKeys.EqualStreamsMeanSameConfiguration | pkg/batcher/instance.go:162-258 | the same configuration, tags included, always gives equal streams, so group order, repetition, implicit PL0 and boolean spelling do not split a batch; for tag keys without an equals sign equal streams mean the same configuration iff the counts agree |
| BatchKeys.OnlyPlainTagsKeepApart | pkg/batcher/instance.go:219-228 | every request with the stream and the counts of a given one has its configuration iff no tag of the given one has an equals sign |
| BatchKeys.FieldDecidesTag | pkg/batcher/instance.go:222-224 | a tag is the only one written like it iff it has no equals sign |
| BatchKeys.TagOrderMatters | pkg/batcher/instance.go:219-228 | for every request with NUL-free fields: every reordering of its tags gives the same stream iff all its tags are written alike as key=value |
| BatchKeys.DifferentCountsCollide | pkg/batcher/instance.go:162-231 | two concrete requests with different groups and tags and one stream |
| BatchKeys.DifferentTagsCollide | pkg/batcher/instance.go:219-228 | two concrete requests with equal counts, one stream and different tags |
| WindowedBatchers.WindowedBatcher.GetOrCreateWindow | pkg/batcher/window.go:244-256 | the access is noted and the key's window is looked up or created, all other windows unchanged |
| WindowedBatchers.WindowedBatcher.Batch | pkg/batcher/window.go:239-265 | the item is added to the key's window and the error of Add is returned |
| WindowedBatchers.WindowedBatcher.CloseAll | pkg/batcher/window.go:268-285 | every registered window is closed and both maps are emptied |
| WindowedBatchers.WindowedBatcher.CleanupExpiredWindows | pkg/batcher/window.go:321-338 | exactly the windows not accessed within windowTTL are closed and forgotten |
| BatcherRuns.RunStaysTidy | pkg/batcher/window.go:239-338 | the batcher invariant holds on every interleaving of lookups, adds, cleanups, closes and window steps |
| BatcherRuns.OneOpenWindowPerKey | pkg/batcher/window.go:239-265 | both maps have the same keys, a key has at most one open window, and every item carries its window's key |
| BatcherRuns.BatchIsAcceptedUnlessLate | pkg/batcher/window.go:239-265 | a Batch is accepted exactly when its window is still open at the Add; it is refused only after Close or a pause longer than windowTTL |
| BatcherRuns.JanitorClosesOnlyIdleWindows | pkg/batcher/window.go:321-338 | an open window is closed exactly when its last access, no earlier than any lookup, is older than windowTTL |
| LaunchChoices.ZonesFromRequirements | pkg/cloudprovider/cloudprovider.go:857-864 | the values of the first zone In requirement, nothing without one |
| LaunchChoices.FilterVSwitchesByZones | pkg/cloudprovider/cloudprovider.go:868-887 | in order, exactly the vSwitches whose zone is allowed; all of them without allowed zones |
| LaunchChoices.InZonesKeepsCounts | pkg/cloudprovider/cloudprovider.go:868-887 | a vSwitch in an allowed zone is kept as often as it is listed, any other never |
| LaunchChoices.ZonesRespected | pkg/cloudprovider/cloudprovider.go:857-887 | the vSwitches kept meet every zone In requirement, for all vSwitches, iff the first is not empty and allows no zone another forbids |
| LaunchChoices.CapacityTypeFromRequirements | pkg/cloudprovider/cloudprovider.go:842-853 | spot iff some capacity-type In requirement lists spot |
| LaunchChoices.SpotStrategyMatchesCapacityType | pkg/utils/ecs/capacity.go:86-107 | NoSpot unless the capacity type is spot; then the strategy of the spec, spaces removed, if it is a spot strategy, and SpotAsPriceGo otherwise |
| LaunchChoices.SelectImageForArchitecture | pkg/cloudprovider/cloudprovider.go:1146-1153 | the first image of the architecture, else the first image |
| LaunchChoices.ImageFor | pkg/cloudprovider/cloudprovider.go:1146-1153 | the choice is one of the images, and suits the architecture whenever one does |
| LaunchChoices.ImageForIsFirst | pkg/cloudprovider/cloudprovider.go:1146-1153 | the choice is the first image of the architecture, and the first image of all when there is none |
| Launching.InstanceProvider.Create | pkg/providers/instance/instance.go:201-364 | one call with the given options; without usable group IDs nothing is launched; errors of ECS are wrapped; an instance is recorded only on success |
| Launching.OutcomeClassifiesRawError | pkg/providers/instance/instance.go:350 | the returned error is a capacity error iff the raw ECS error is |
| Launching.OnlyLaunchesSucceed | pkg/providers/instance/instance.go:201-364 | success with an ID iff ECS answered with it and all group IDs are non-empty, at least one |
| Launching.RecordedAsAsked | pkg/providers/instance/instance.go:201-364 | the instance ECS records has the type, image, vSwitch and set of groups of the options |
| Launching.VSwitchFallbackCreate | pkg/cloudprovider/cloudprovider.go:1027-1051 | the vSwitches are tried in some order of non-increasing free IPs up to the first outcome that is not a capacity failure, whose outcome is returned; exhausted otherwise; created exactly what that attempt created |
| Launching.FallbackClassifiesExhaustion | pkg/cloudprovider/cloudprovider.go:1042-1050 | the wrapped error reads as capacity iff every attempt failed for capacity |
| LaunchPlans.RoleForCreate | pkg/cloudprovider/cloudprovider.go:1073-1084 | accepted iff there is no role or the resolved role is the spec's |
| LaunchPlans.TryInstanceTypes | pkg/cloudprovider/cloudprovider.go:964-1023 | over m vSwitches, call k made is for instance type k / m in the given order, with the first image of its architecture, on vSwitch k % m of an order by free IPs; calls, result and instances follow a plan of all such calls |
| LaunchPlans.CreateInstanceWithRetry | pkg/cloudprovider/cloudprovider.go:921-1023 | nothing is tried when parameters, role or disks are wrong, with the first reason; otherwise the calls made are in the order of the instance types given, and each has the role, the sorted distinct groups, the disks and the spot strategy and price limit that the spec and the requirements ask for |
| LaunchPlans.PlansAreInPriorityOrder | pkg/cloudprovider/cloudprovider.go:971-1036 | every beginning of a plan goes through the instance types given in their order, each on all vSwitches by free IPs with its image |
| LaunchPlans.PlansHaveSettings | pkg/cloudprovider/cloudprovider.go:926-1010 | all calls of a plan have the settings of the spec and the requirements |
| LaunchPlans.PlanShape | pkg/cloudprovider/cloudprovider.go:971-1036 | attempt i * m + j is base i on the j-th of its m vSwitches, and there are bases × vSwitches of them; PlansAreInPriorityOrder ties the bases to the instance types |
| LaunchPlans.LaunchIsAPrefix | pkg/cloudprovider/cloudprovider.go:964-1051 | the calls are a prefix of the plan; all but the last failed for capacity; success iff the last succeeded, with its ID; the error is a capacity error iff all types × vSwitches attempts failed for capacity |
| LaunchPlans.AttemptsStayInside | pkg/cloudprovider/cloudprovider.go:971-1036 | every attempt is for one of the instance types on one of the vSwitches |
| CapacityErrors.ContainsMeansOccurs | pkg/errors/errors.go:68-77 | the substring test finds exactly the occurrences |
| CapacityErrors.CapacityMeansFourCodes | pkg/errors/errors.go:68-77 | a capacity error is a message in which one of four codes occurs |
| CapacityErrors.WrappingKeepsClassification | pkg/errors/errors.go:68-77 | no prefix that ends in a space and has no dot changes the classification, in either direction |
| CapacityErrors.AnyWrappingKeepsClassification | pkg/cloudprovider/cloudprovider.go:1020-1050 | nor does any number of them |
| CapacityErrors.TypesExhaustedIsWrapper | pkg/cloudprovider/cloudprovider.go:1022 | the exhaustion message is such a prefix |
| CapacityErrors.CreateFailedIsWrapper | pkg/cloudprovider/cloudprovider.go:1048 | so is the failure message used at three levels |
| CapacityErrors.VSwitchesExhaustedIsWrapper | pkg/cloudprovider/cloudprovider.go:1050 | so is the message of the inner loop |
| CapacityErrors.BatchFailedIsWrapper | pkg/batcher/instance.go:80-96 | so is the message of the batch executor |
| NodeDrift.IsImageAllowed | pkg/cloudprovider/cloudprovider.go:1157-1164 | true iff some resolved image has the ID |
| NodeDrift.IsVSwitchAllowed | pkg/cloudprovider/cloudprovider.go:1166-1173 | true iff some resolved vSwitch has the ID |
| NodeDrift.IsSecurityGroupAllowed | pkg/cloudprovider/cloudprovider.go:1175-1181 | true iff the instance has exactly the resolved set of groups |
| NodeDrift.IsDrifted | pkg/cloudprovider/cloudprovider.go:653-698 | no drift iff hash, image, vSwitch and group set all agree, else the first that does not; errors for unreadable IDs and unknown instances |
| NodeDrift.FirstDifferenceIsReported | pkg/cloudprovider/cloudprovider.go:673-697 | in terms of claim, instance and NodeClass: drift is reported for the first of a hash that differs, an image ID not listed, a vSwitch ID not listed and a differing set of groups, and for nothing else |
| NodeDrift.Create | pkg/cloudprovider/cloudprovider.go:137-226 | refusals in order with nothing launched; every attempt is on a vSwitch of the NodeClass in an allowed zone, the attempts go through the instance types given in their order, and each has the settings of the spec and the requirements; otherwise nothing is recorded if the launch fails, and exactly the instance of the last attempt if not; the claim names it and carries the hash, or ECS does not show it and it is left without a claim |
| NodeDrift.FirstLackIsRefused | pkg/cloudprovider/cloudprovider.go:147-185 | what Create refuses for: readiness, then missing instance types, images, vSwitches in allowed zones and groups, in this order |
| NodeDrift.ClaimDescribesInstance | pkg/cloudprovider/cloudprovider.go:211-225 | the claim has the provider ID and the image of the instance, the hash and its version; its other annotations are the original ones |
| NodeDrift.LaunchAndClaim | pkg/cloudprovider/cloudprovider.go:205-225 | the same for the launch itself, the instance left behind included |
| NodeDrift.AttemptConforms | pkg/cloudprovider/cloudprovider.go:964-1051 | whichever type and vSwitch an attempt is for, its instance passes the image, vSwitch and group checks |
| NodeDrift.NewNodeIsNotDrifted | pkg/cloudprovider/cloudprovider.go:205-225 | the instance of a claim returned by Create is found by its provider ID iff its ID has no dot; it is not drifted iff the spec hashes the same and it still conforms, which it does while everything stays listed |
| NodeDrift.OneReason | pkg/cloudprovider/cloudprovider.go:673-697 | IsDrifted has exactly one answer |
| NodeDrift.CreateThenCheck | pkg/cloudprovider/cloudprovider.go:137-226 | Create followed by IsDrifted reports no drift while the spec hashes the same and what was resolved stays listed, in particular on an unchanged NodeClass |
| ProviderIDs.ProviderIDRoundTrip | pkg/cloudprovider/cloudprovider.go:703-720 | both readers give back the instance ID iff it has no dot, whatever the region |
| ReadyNodeClass.ReadyIsLaunchable | pkg/cloudprovider/cloudprovider.go:146-194 | after any run of reconciles Create gets past its checks iff the last stored one found everything, some type matches and some vSwitch is in an allowed zone; then the role is accepted too |
| Inventory.GetInventory | pkg/providers/instancetype/instancetype.go:370-446 | no inventory when a query fails; otherwise a type, zone and capacity type are known iff some entry of the query for that capacity type has status WithStock, ClosedWithStock, WithoutStock or ClosedWithoutStock, and in stock iff some entry has one of the first two |
| Inventory.Record | pkg/providers/instancetype/instancetype.go:428-438 | one row merged: stock is never downgraded |
| Inventory.MergeTriple | pkg/providers/instancetype/instancetype.go:428-438 | merging changes what is known and in stock by exactly that row |
| Inventory.RowOrderDoesNotMatter | pkg/providers/instancetype/instancetype.go:393-442 | rows in any order and multiplicity give the same map |
| Inventory.RowsAreEntries | pkg/providers/instancetype/instancetype.go:407-427 | the rows are exactly the entries with type InstanceType, all fields present and a recognised status; RowsAreReports says which those are |
| Inventory.RowsAreReports | pkg/providers/instancetype/instancetype.go:407-427 | a triple has a row iff an entry of the answer for its capacity type has one of the four statuses, and one in stock iff it has WithStock or ClosedWithStock |
| Inventory.RunningOutKeepsKnown | pkg/providers/instancetype/instancetype.go:422-438 | rows running out leave every triple known and bring none into stock |
| InstanceTypes.ZonesFor | pkg/providers/instancetype/instancetype.go:492-535 | exactly the available zones about which something is known, each with its known and its in-stock capacity types; all of both without an inventory |
| InstanceTypes.List | pkg/providers/instancetype/instancetype.go:449-568 | in order, exactly the types with an ID, CPU, memory and a served zone |
| InstanceTypes.KeptRows | pkg/providers/instancetype/instancetype.go:449-568 | a row with ID, CPU, memory and an available zone about which something is known is kept, after those kept before it; any other is not |
| InstanceTypes.MatchesStringRequirement | pkg/providers/instancetype/instancetype.go:807-830 | the meaning of each operator |
| InstanceTypes.MatchesZoneRequirement | pkg/providers/instancetype/instancetype.go:833-870 | the zone operators ask for, or against, a zone that is available now |
| InstanceTypes.MatchesRequirement | pkg/providers/instancetype/instancetype.go:633-674 | a capacity-type requirement matches if on-demand or spot would, a zone requirement by the zones available now, any other by its label value; unknown keys match |
| InstanceTypes.Filter | pkg/providers/instancetype/instancetype.go:611-630 | in order, exactly the types that match every requirement |
| InstanceTypes.FilterInstanceTypesByRequirements | pkg/cloudprovider/cloudprovider.go:890-919 | dropping requirements with other operators changes nothing |
| Offerings.ConfiguredZones | pkg/cloudprovider/cloudprovider.go:455-463 | the zones of the NodeClass's vSwitches |
| Offerings.BuildOfferings | pkg/cloudprovider/cloudprovider.go:495-528 | exactly one offering per known pair in a configured zone, available iff in stock |
| Offerings.GetInstanceTypes | pkg/cloudprovider/cloudprovider.go:408-590 | errors in order; otherwise, in order, the passing types with some offering, each with its offerings |
| Offerings.OfferingsMatchInventory | pkg/cloudprovider/cloudprovider.go:495-519 | a pair is offered iff it is known to the inventory in a configured, available zone, once, and available iff in stock |
| Offerings.OfferFromAnswers | pkg/cloudprovider/cloudprovider.go:408-590 | from the API answers to the result: a returned type has one offering for every pair in a configured, available zone for which the query of the capacity type reports one of the four statuses, and no other, available iff some entry is WithStock or ClosedWithStock; when a query fails, both capacity types of every such zone, as available |
| Offerings.OnlyZoneDemandsDropTypes | pkg/providers/instancetype/instancetype.go:833-870 | a passing type passes whatever runs out iff no requirement is a zone In or Exists |
| Offerings.LoweredOfferings | pkg/cloudprovider/cloudprovider.go:502-519 | when stock is lowered the pairs stay and none becomes available |
| Offerings.RunningOutKeepsOfferings | pkg/cloudprovider/cloudprovider.go:486-519 | without such a requirement a returned type is still returned after any rows run out, with the same zones and capacity types |
| NodeClassStatus.NodeClass.SetCondition | pkg/controllers/nodeclass/status/controller.go:303-333 | the condition is set in place or appended; its transition time moves only with its status |
| NodeClassStatus.Set | pkg/controllers/nodeclass/status/controller.go:303-333 | setting one condition changes what is read of that one only |
| NodeClassStatus.NodeClass.GetCondition | pkg/controllers/nodeclass/status/controller.go:365-372 | the first condition of the type |
| NodeClassStatus.NodeClass.IsReady | pkg/controllers/nodeclass/status/controller.go:336-352 | true iff the four conditions are True |
| NodeClassStatus.NodeClass.ResolveSelectorResources | pkg/controllers/nodeclass/status/controller.go:219-299 | the three resolutions in order; an error iff one failed, found nothing or exceeds the attach limit |
| NodeClassStatus.NodeClass.SetSelectorConditionsFromLaunchTemplateError | pkg/controllers/nodeclass/status/controller.go:207-217 | all three conditions and readiness go down |
| NodeClassStatus.NodeClass.ResolveLaunchTemplate | pkg/controllers/nodeclass/status/controller.go:158-205 | the template path with its partial update of images |
| NodeClassStatus.NodeClass.Reconcile | pkg/controllers/nodeclass/status/controller.go:90-156 | an invalid role answer takes RAMRoleResolved and Ready down, keeps the stored role and is an error, any other makes it True with the spec's role; vSwitches, groups (at most 5) and images, or the launch template, decide their own conditions and lists in the same way; Ready is True iff everything was found, and otherwise False with an error |
| NodeClassStatus.ReconcileFollowsAnswers | pkg/controllers/nodeclass/status/controller.go:90-299 | the same of the status before and after, each condition with its reason, the partial update of the launch template path included |
| NodeClassStatus.ReconcileDecidesReadiness | pkg/controllers/nodeclass/status/controller.go:90-156 | from any status, afterwards Ready is True iff the four conditions are, and iff all the answers found something, the role one not being invalid |
| NodeClassStatus.ReadyMeansUsable | pkg/controllers/nodeclass/status/controller.go:90-156 | Ready means non-empty lists, just resolved, within the attach limit, and the spec's role |
| NodeClassStatus.FailureKeepsList | pkg/controllers/nodeclass/status/controller.go:158-299 | a failed resolution keeps the list of the last good one |
| NodeClassStatus.ReconcileMovesTransitions | pkg/controllers/nodeclass/status/controller.go:303-333 | every condition's transition time moves in a reconcile iff its status differs before and after |
| NodeClassStatus.ReconcileKeepsKindsUnique | pkg/controllers/nodeclass/status/controller.go:303-333 | condition types stay unique |
| NodeClassStatus.RunIsFaithful | pkg/controllers/nodeclass/status/controller.go:90-156 | on every run, with failing updates and changing specs, Ready tells whether the last stored reconcile resolved everything, and its transition time is when that last changed |
| TagBatches.BatchTags | pkg/utils/ecs/tags.go:37-62 | the batches of the tags |
| TagBatches.BatchesAreBatching | pkg/utils/ecs/tags.go:37-62 | they are disjoint, key-ordered, of 1 to 20 tags, all but the last full, and merge to the input |
| TagBatches.BatchingIsUnique | pkg/utils/ecs/tags.go:37-62 | there is only one such division |
| Tagging.SingleBatch | pkg/utils/ecs/tags.go:37-62 | up to 20 tags are one batch, unchanged |
| Tagging.ManagementTagsSurvive | pkg/cloudprovider/cloudprovider.go:748-771 | validated NodeClass tags neither override nor lose the management tags, the node pool tag from its label included, and all of them are kept |
| Tagging.TagInstance | pkg/providers/instance/instance.go:750-791 | batches are sent in order until one fails; on success the result is one map merge |
| Tagging.DiffAfterAttempt | pkg/controllers/nodeclaim/tagging/controller.go:124-130 | after the first k batches the next diff is exactly the other batches |
| Tagging.AttemptShrinksDiff | pkg/controllers/nodeclaim/tagging/controller.go:113-138 | an attempt never enlarges the diff and touches no other tag |
| Tagging.AttemptsConverge | pkg/controllers/nodeclaim/tagging/controller.go:113-138 | over any attempts the diff never grows; n attempts that each apply a batch finish once 20 n reaches its size |
| Tagging.TagIfDifferent | pkg/controllers/nodeclaim/tagging/controller.go:113-138 | success means the desired tags hold and a second diff is empty; failure leaves exactly the batches before it; nothing is sent without a difference |
| Tagging.CollectDiff | pkg/controllers/nodeclaim/tagging/controller.go:124-130 | the missing or different tags |
| Tagging.Reconcile | pkg/controllers/nodeclaim/tagging/controller.go:54-110 | the claim is marked exactly when all desired tags are on the instance and the patch is taken; otherwise which error, and what was applied |
| Tagging.TagAtLaunch | pkg/providers/instance/instance.go:301-322 | the first batch goes with the launch, each other one in a call of its own |
| Tagging.LaunchedTagsAreDesired | pkg/providers/instance/instance.go:365-372 | a new instance carries no wrong tag, its first batch, and each other one iff its own call succeeds |
| TtlCaches.Cache.Get | pkg/providers/instance/instance.go:142-168 | a hit iff an unexpired entry is there; an expired one is removed |
| TtlCaches.Cache.ExpirePhase | pkg/providers/instance/instance.go:155-164 | the second look deletes only an entry that is expired then |
| TtlCaches.Cache.Set | pkg/providers/instance/instance.go:170-178 | the value is stored until now plus the TTL |
| TtlCaches.Cache.DeleteExpired | pkg/providers/instance/instance.go:181-190 | exactly the unexpired entries stay |
| TtlCaches.Cache.Delete | pkg/providers/instance/instance.go:193-198 | the entry is gone, all others stay |
| TtlCaches.ReadsAnswerLikeAMap | pkg/providers/instance/instance.go:142-198 | under every interleaving a read hits iff a value was stored at most its TTL ago and not deleted since, and returns the latest |
| TtlCaches.ExpiryRemovesOnlyExpired | pkg/providers/instance/instance.go:155-190 | neither a second look nor a purge removes an unexpired entry |
| SecurityGroups.NormalizeIDs | pkg/utils/securitygroups/securitygroups.go:22-36 | the strictly increasing list of the distinct IDs |
| SecurityGroups.EqualIDs | pkg/utils/securitygroups/securitygroups.go:38-50 | true iff both lists have the same elements |
| SecurityGroups.NormalFormDecidesSetEquality | pkg/utils/securitygroups/securitygroups.go:22-50 | canonical forms agree iff the sets do, and normalising twice changes nothing |
| VSwitches.GetByQuery | pkg/providers/vswitch/vswitch.go:159-189 | rows without an ID are skipped, the rest converted in order; missing fields become zero values; an error only from the query |
| VSwitches.EachRowInOrder | pkg/providers/vswitch/vswitch.go:171-187 | each row with an ID gives, after those of the rows before it, a vSwitch with its zone as zone and zone ID and its free IPs, missing ones "" and 0; any other row gives none |
| VSwitches.RemoveDuplicateVSwitches | pkg/providers/vswitch/vswitch.go:209-224 | the first vSwitch of every ID, by ID |
| VSwitches.ResolvedIsUnique | pkg/providers/vswitch/vswitch.go:209-224 | there is one resolved list for what was found |
| VSwitches.Provider.Resolve | pkg/providers/vswitch/vswitch.go:106-146 | over any sequence of calls a hit is the resolved, non-empty list of the terms that last filled the entry, at most its TTL old, and those are the terms asked for when these are unambiguous; otherwise the canonical list, cached iff not empty; an error iff some query fails |
| VSwitches.Provider.SetCacheTTL | pkg/providers/vswitch/vswitch.go:63-65 | only entries stored later are affected |
| VSwitchKeys.PrintsAloneIffUnambiguous | pkg/providers/vswitch/vswitch.go:114-115 | for all terms and addresses: no other terms, wherever their pointers point, have the same cache key iff there are no IDs and zones and either no tags or one term with one tag, its only colon, whose key does not begin and whose value does not end with what stands between the tags of two terms |
| VSwitchKeys.OrdinaryTagPrintsAlone | pkg/providers/vswitch/vswitch.go:114-115 | a single tag without colons is the only one with its key whenever its key does not begin with `]` and its value does not end with `[` |
| VSwitchKeys.TagsPrintAlike | pkg/providers/vswitch/vswitch.go:114-115 | any two tags have the cache key of a single tag |
| VSwitches.TermsAreASet | pkg/providers/vswitch/vswitch.go:123-145 | permuting or repeating terms changes neither success nor the resolved IDs, which are strictly increasing |
| LabelValues.NormalizeLabelValue | pkg/apis/v1alpha1/labels.go:199-219 | every string becomes a valid lower-case label value |
| LabelValues.FixedPoints | pkg/apis/v1alpha1/labels.go:199-219 | exactly the valid lower-case label values are left alone |
| LabelValues.RunsBecomeOneHyphen | pkg/apis/v1alpha1/labels.go:199-219 | a whole run of other characters becomes one hyphen wherever it stands, label characters are kept |
| LabelValues.LongValuesAreCut | pkg/apis/v1alpha1/labels.go:199-219 | a result of more than 63 characters loses what comes after them and separators right before that, a shorter one nothing |
| LabelValues.TrimCutsEnds | pkg/apis/v1alpha1/labels.go:199-219 | trimming cuts all characters of the cutset off both ends and nothing else |
| LabelValues.Idempotent | pkg/apis/v1alpha1/labels.go:199-219 | normalising twice is normalising once, truncation included |
| NodeClassDisks.NormalizeDisks | pkg/apis/v1alpha1/disks_normalize.go:63-144 | accepted iff policy, system disk and all data disks are well formed, and then each field of each disk is the one given, or its default, in order; otherwise the first fault |
| NodeClassDisks.EffectiveKeepsDisks | pkg/apis/v1alpha1/disks_normalize.go:63-144 | category, size, device, snapshot, key and level are those given or the defaults; encryption and keeping the disk are asked for iff the spec asks |
| NodeClassDisks.DiskRules | pkg/apis/v1alpha1/disks_normalize.go:154-182 | a disk is accepted iff category and size fit, a level is given for ESSD disks only and is PL0 to PL3, and a key comes with encryption |
| NodeClassDisks.NormalizeDiskPerformance | pkg/apis/v1alpha1/disks_normalize.go:168-182 | only ESSD disks have a level, PL0 unless given |
| NodeClassDisks.NormalizeIsIdempotent | pkg/apis/v1alpha1/disks_normalize.go:63-144 | a normalised result fed back is returned unchanged |
| NodeClassDisks.ECSNodeClass.Default | pkg/apis/v1alpha1/ecsnodeclass_webhook.go:40-92 | refused iff the disks are not well formed; otherwise the defaulted spec |
| NodeClassDisks.DefaultKeepsDisks | pkg/apis/v1alpha1/ecsnodeclass_webhook.go:40-92 | defaulting changes no effective disk |
| NodeClassDisks.DefaultIsIdempotent | pkg/apis/v1alpha1/ecsnodeclass_webhook.go:40-92 | defaulting twice is defaulting once |
| NodeClassDisks.DefaultOnlyFillsIn | pkg/apis/v1alpha1/ecsnodeclass_webhook.go:40-92 | nothing set is changed and everything with a default gets it: a 40 GB ESSD disk of level PL0, optional tokens, one hop, open reservations |
| NodeClassDisks.DefaultKeepsValidity | pkg/apis/v1alpha1/ecsnodeclass_validation.go:30-100 | a valid spec stays valid iff it names no launch template |
| NodeClassDisks.DefaultAcceptsValid | pkg/apis/v1alpha1/ecsnodeclass_validation.go:30-74 | without a launch template every valid spec is accepted and stays valid |
| Ordering.SortBy | pkg/cloudprovider/cloudprovider.go:1028-1032 | an ordered permutation, in no particular order among equals, as the library sort promises |
| Ordering.LeqIsLexicographic | pkg/utils/ecs/tags.go:42-47 | the string order used: a prefix first, otherwise the first difference decides |

## Left out

- SDK and Kubernetes clients, credentials, flags, logging and metrics: plumbing; their answers are parameters.
- SHA-256, JSON and base64: the batch key and the NodeClass hash are functions of the fields they read, and what is proved is about their input; what the hash covers is therefore not modelled.
- User data, bootstrap scripts, metadata options and IPv6 settings of a launch: the same for every attempt, passed through unread.
- Prices, interruptions, capacity reservations, launch-template creation, RAM policy parsing and the unavailable-offerings cache: placeholders or thin API calls.
- Overhead and capacity arithmetic, GPU tables and quantity units: one expression each; whether a capacity can be computed is a parameter.
- InstanceTypes.MatchesRequirement: the label values other than zone and capacity type (family, size, generation, GPU and so on) come from a parameter that does not see zones; how they are cut out of a type name is not modelled.
- The caches around inventory, zones and instance types: they have the code of the cache in TtlCache; the model shows what is fetched on a miss.
- VSwitches.Provider.Resolve: takes the printed cache key as a parameter that must equal the specification of it; which addresses a pointer has is arbitrary.
- The messages of status conditions: readiness does not depend on them.
- Reading the clock several times in one reconcile: all conditions of a reconcile get one time.
- WindowedBatchers.WindowedBatcher.CloseAll: requires that the batcher was not closed before, because a second Close panics on its stop channel; calls of Batch after Close, which open new windows, are modelled.
- The contexts of callers: a caller that gives up waiting leaves its item in the window, as one that never reads its channel does.
- The validators of fields Default never writes are booleans of the spec; unicode.ToLower is a parameter that keeps label characters.
- The instance name, client token and bandwidth of a batched request: the batch key does not read them, and all waiters of a batch get those of its first request.
- Pagination of DescribeVSwitches and DescribeInstances, and the singleflight around DescribeInstances.

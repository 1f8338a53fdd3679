# celld-operator: a verified model

A Dafny model of the operator that runs fleets of celld nodes on Kubernetes, with proofs of what it
promises. `dafny verify dfyconfig.toml` checks everything.

The core is the gated rollout of one StatefulSet. `Rollout.Decide` is one reconcile pass as a function of
what the pass read; `Reconciler` is the same pass as it runs, with its loops, in-place edits and
compare-and-swap writes, proved to do exactly what `Decide` says. `Protocol` puts passes into a
transition system: any number of passes in flight, each reading at different moments and then attempting
one write that lands only if the version it read is still the last; a StatefulSet controller that acts on a
copy that may lag arbitrarily and writes its status; pods that are created, deleted, become ready, fail and
vanish; anyone rescaling; time. Spec edits need no step of their own, because every pass chooses its app
and desired template freely; operator restarts need none either, because a pass carries no memory but the
object. The theorems about runs quantify over every finite run of this system:

- `StopAll`, `DrainedReturn`: a recreate overlaps no two fleets until the next template write; exactly when that
  write lets pods of a drained template come back; and a fleet of celld's own releases in which they do.
- `MixedFleet`, `CurrentRevision`, `StaleRevision`, `CensusRace`: rolling never mixes incompatible nodes, under a
  hypothesis both halves of which are shown to be needed; what check would make it unnecessary; exactly when
  a frozen fleet can become mixed; and fleets of celld's own releases that do.
- `OneDisruption`, `CacheLag`: at most one pod is down at a time, however much the controller is allowed to do at
  once; and a run that takes two down when the gate's cache lags further.
- `History`, `Spacing`, `FloorBreach`: settle spacing between clock readings and, exactly, between landings; the
  recreate marker; the version floor, exactly what gets around it, and a run that does.
- `TrueReports`, `CondemnedCount`: behind a completed rollout every live pod runs the desired template, if the report
  it read counted truly; and a run in which a report that counts a pod beyond the scale misleads the operator.
- `Convergence`, `BreakingRecreate`, `RollsToReady`: the writes still to be made are a function of the object; every
  history follows them; and a recreate across a breaking boundary, and a rolling update of any size, reach Ready.

`Reach` builds the runs the counterexamples and the tight halves of the equivalences need, from larger moves: a
checked template write, a gated release, a replacement, a report.

What an operation computes is stated twice where that matters: by the function the code is proved to compute, and by
a relation over the raw fields, keys and answers that does not use it (`Rollout.Permits`, `Rollout.RolledOut`,
`Rollout.InPhase`, `Census.States`, `Versions.Line`, `Annotations.LeavesOf`), joined by an equivalence.

The other modules are the compatibility relation (`Versions`, `ImageTags`, `Compatibility`), the fleet
census (`Census`), the scaler (`Scaler`), the deploy-pointer cache and what an outage does
(`DeployTracker`, `AppVersion`), the config digest (`ConfigDigest`), annotation ownership (`Annotations`),
and the store race (`CasHammer`).

## Assumptions

- Below the partition the StatefulSet controller creates pods from its current revision, at or above it
  from the template. `MixedFleet.CensusKeepsUp` is the hypothesis of the mixed-fleet theorem: pods are
  created with a revision the last template write brought together, that is, one its census saw, one alive when
  it landed, or one of the two templates; and pods that came up between a template write's census and
  its landing can share a fleet with what it installs. Neither half can be dropped: every step of the run of
  `StaleRevision.CelldFleetMixes` keeps the second, every step of `CensusRace.CelldLatePodsMix` the first.
- Gate 1 reads pods through a cache. `OneDisruption.Replacing` takes the cache to be no older than the last template
  write if that write installed a template in use nowhere, and no older than the last operator write if it
  installed again a template still in use. `CacheLag` shows the distinction is needed: with the first
  half alone, for every fleet of two or more, a run from rest takes two pods down.
- `OneDisruption` also takes pods to go down only by replacement, a fixed scale, and a fleet at rest to
  begin with; it allows template writes and releases in any order, so rollouts may be stacked.
- `TrueReports.CountsTruly` takes the controller to count no more pods as updated than ordinals of the fleet are.
  `CondemnedCount.CelldCondemnedPodCounts` shows why it is there: a count that is true of all pods, one of them
  beyond the scale, lets the operator report Ready over a pod that was never updated.
- `Convergence` takes the spec to be fixed and the controller to write only its status between passes. What makes a
  pass cooperate is only what its own next step waits for.
- The template hash, the config digest and the tracker's identity digest are injective; the two
  JSON texts are inverse pairs; revisions are named by the template they hold.
- The controller's status and its view of pods are current when it acts; only its copy of the object lags.
- Go's int64 limits are explicit: parsed versions in `ImageTags`, the wrapping restoring sum in `Census`.

## Where code and documentation disagree

`docs/celld-behaviors.md:18` (F8) says live pods are checked before every template change so that an
unfinished rollout cannot hide an older runtime. The code checks the template and the live pods, but not
the controller's current revision, which can hide one; and pods may come up between the check and the
write. The model follows the code.

## Model

| member | source | states |
|---|---|---|
| `Versions.CollectReasons` | internal/controller/rollout.go:209-224 | The loop over the boundary table collects, each once and in table order, exactly the boundaries crossed in a direction they refuse; it finds none if and only if no boundary is. |
| `Versions.ReasonIff` | internal/controller/rollout.go:58-112 | The i-th boundary is a reason if and only if it lies between the release lines of the two versions, and is not the one from 0.2 up to 0.3. |
| `Versions.FlaggedIff` | internal/controller/rollout.go:58-112 | A change is flagged if and only if it leaves its release line (up to 0.1, 0.2, 0.3, 0.4, from 0.5 on) other than from 0.2 up to 0.3. |
| `Versions.SameVersionCrossesNothing` | internal/controller/rollout.go:209-224 | A change of a version to itself is flagged by no boundary. |
| `Versions.NoLaundering` | internal/controller/rollout.go:58-112 | For every chain of versions in any order, a boundary crossed by the direct change is crossed by one single hop in the same direction. |
| `Versions.FlaggedChangeHasFlaggedHop` | internal/controller/rollout.go:209-224 | If the direct change is flagged for a boundary, some hop of the chain is flagged for the same boundary. |
| `Versions.MonotoneReasonsAreTheUnion` | internal/controller/rollout.go:209-224 | For a monotone chain a boundary is a reason of the direct change if and only if it is a reason of some hop. |
| `ImageTags.ReadersAgree` | internal/controller/rollout.go:182-202 | For every image the validator accepts, with any registry port, path, digest suffix and optional v, the other reader finds the same tag and returns its first two numbers if they fit Go's int, and otherwise does not parse it. |
| `ImageTags.AcceptedImageParses` | internal/controller/validation.go:14-33 | An accepted image parses if and only if its first two numbers fit Go's int, and never to a negative version. |
| `ImageTags.MinorOfReads` | internal/controller/rollout.go:182-202 | Any image tagged with an optional v, two parts and at most more after another dot, with or without a digest, has the version the two parts name if Go reads both as numbers, and none otherwise. |
| `GoText.AtoiReads` | internal/controller/rollout.go:193-200 | A signed or unsigned decimal reads as the number it denotes if that fits Go's int, and as no number otherwise. |
| `Compatibility.FleetBreakingReason` | internal/controller/rollout.go:116-132 | The two-stage check classifies a change exactly as the hazard relation does: the boundary table first, then replication streams across v0.6 when either side uses fleet durability. |
| `Compatibility.CompatibleIff` | internal/controller/rollout.go:80-149 | Two templates may share a fleet if and only if a tag names no version, or the versions are of one release line or go from 0.2 up to 0.3 and, when on different sides of 0.6, both templates ask for bucket durability. |
| `Compatibility.SameRuntimeCompatible` | internal/controller/rollout.go:116-132 | Templates with the same runtime are compatible, whatever else differs. |
| `Compatibility.SameImageAllowed` | internal/controller/rollout.go:684-694 | No image is refused in place of itself. |
| `Compatibility.UpgradeAllowed` | internal/controller/rollout.go:684-694 | Between recognized images a change to v0.3 or later is never refused outright. |
| `Compatibility.RefusedIff` | internal/controller/rollout.go:684-694 | A change of image is refused outright if and only if it goes from v0.3 or later to before it, or to or from a different image that names no version without Recreate. |
| `Compatibility.SuffixedImageReads` | internal/controller/validation.go:14-33 | Every patch release, with or without the v, under any suffix the tag pattern allows, is accepted and reads as the version of its first two numbers. |
| `Compatibility.TableHazardHasHop` | internal/controller/rollout.go:116-132 | A boundary hazard between the ends of any chain of parsed runtimes is a boundary hazard of one hop. |
| `Compatibility.FixedDurabilityIsNotLaundered` | internal/controller/rollout.go:116-149 | A chain that keeps one durability proof cannot hide any hazard between its ends. |
| `Compatibility.DurabilityHazardIsLaundered` | internal/controller/rollout.go:116-149 | Changing durability first does hide one: three accepted templates, both hops compatible, the direct change not. |
| `Census.Fetch` | internal/controller/fleetstate.go:150-184 | The body checks, with the loop over required keys, accept an answer with a state if and only if it is a 200 of at most 4 MiB whose body states that state key by key. |
| `Census.AcceptsWhatIsStated` | internal/controller/fleetstate.go:98-184 | Accepted means: no error key; occupied and restoring under their own keys, numbers from 0 to the int64 maximum; evicting under its own key or absent and 0; shedding and deployment their own keys' values; nothing ill-typed; everything else fails closed. |
| `Census.FleetSweep` | internal/controller/fleetstate.go:188-214 | For every completion order of the concurrent tasks: it fails if and only if some task did; the samples are exactly the accepted answers; the sum is the 64-bit sum of all their counters. |
| `Census.Record` | internal/controller/fleetstate.go:204-210 | The section under the mutex, entered in any order, yields the same samples and the same wrapped sum. |
| `Census.CheckListing` | internal/controller/rollout.go:578-594 | The three checks of the listing accept exactly the full fleets: at least one pod and the right count, every pod owned, its Ready condition true and not being deleted, every ordinal's name present. |
| `Census.PodNameInjective` | internal/controller/rollout.go:590-594 | Two ordinals of a fleet never share a pod name. |
| `Census.FullFleetIsBijection` | internal/controller/rollout.go:578-594 | Count and names together make the listing a bijection with ordinals 0..n-1: the same names, none twice. |
| `Census.ObservedByOrdinal` | internal/controller/rollout.go:573-596 | A successful census has one sample for each ordinal and no other, each that pod's own accepted answer. |
| `Census.ObserveFleet` | internal/controller/rollout.go:573-596 | Success means a full fleet, all of it answering, samples that cover exactly it, and the wrapped sum. |
| `Census.ObservedIsTheResult` | internal/controller/rollout.go:573-596 | A listing and its answers can be observed in one way only. |
| `Census.CountFleet` | internal/controller/rollout.go:573-596 | The census as it runs gives that result for every completion order of its sweep. |
| `Census.SweptCountersReportable` | internal/controller/fleetstate.go:175-180 | Every counter a sweep adds lies between 0 and the largest int64. |
| `Census.ZeroSumMeansAllZero` | internal/controller/fleetstate.go:204-210 | While the true sum is below 2^64, the wrapped sum is zero if and only if every pod's counter is. |
| `Census.SettledOrdinal` | internal/controller/rollout.go:573-596 | Behind a zero sum, each ordinal's own listed pod is owned, ready and answered with the sampled state, and while the true sum is below 2^64 it has nothing left to restore. |
| `Census.GateExactIff` | internal/controller/fleetstate.go:204-210 | For reportable counters the wrapped sum is zero only for all-zero counters if and only if the fleet has at most two pods. |
| `Scaler.ScalerApi.PauseScaling` | internal/controller/rollout.go:601-647 | It answers yes if and only if it observed a quiet scaler, and a yes changed nothing; it fails if and only if the object is someone else's or a request it needed failed; with no failing request it made exactly one step towards quiet, with a failing read or write none. |
| `Scaler.QuietIff` | internal/controller/rollout.go:601-647 | Quiet holds if and only if nothing may scale the fleet, neither a KEDA object not known to be paused nor an autoscaler of this StatefulSet, and the KEDA object is as the spec wants it. |
| `Scaler.OneStepQuiets` | internal/controller/rollout.go:601-647 | One step and KEDA's acknowledgement make the scaler quiet if and only if the object is not someone else's and no autoscaler names the StatefulSet. |
| `Scaler.TowardsKeeps` | internal/controller/rollout.go:601-647 | Someone else's object is left as it is, and a second step changes nothing. |
| `Rollout.Decide` | internal/controller/rollout.go:355-423 | Whichever of the six writes a pass attempts, it found the scaler quiet, owns the object and refused nothing; it reports Ready only with no write, the desired hash, partition 0 and no recreate marker. |
| `Rollout.WritesIffPermitted` | internal/controller/rollout.go:362-423 | The nested branches make each of the six writes under exactly one flat condition on the fields read and with exactly one content, field by field. |
| `Rollout.GateIff` | internal/controller/rollout.go:451-474 | Gate 1 passes if and only if every released ordinal was read on the update revision, with its Ready condition true and not being deleted; it fails if and only if the first that was not could not be read. |
| `Rollout.LiveHazardIff` | internal/controller/rollout.go:151-170 | The live fleet is breaking if and only if the template or an owned pod cannot share a fleet with the desired template; the check fails if and only if the templates can and the list fails. |
| `Rollout.RolledOutIff` | internal/controller/rollout.go:649-682 | A pass completes the rollout if and only if the object is the operator's own and nothing is refused, the hash is the desired one with partition 0 and no recreate marker, the scale is the spec's or the autoscaler's, ready and updated replicas equal the scale at the observed generation, and every sample of a census with a zero sum serves exactly the version with nothing draining or swapping. |
| `Rollout.PhaseIff` | internal/controller/rollout.go:355-682 | A pass shows each of the five phases under exactly one flat condition, and fails when none holds. |
| `Rollout.ShowsPartition` | internal/controller/rollout.go:404-502 | While rolling out, the partition shown is that of the object the pass leaves. |
| `Rollout.RunsAgain` | internal/controller/rollout.go:355-682 | Every pass that reports is run again, except one that waits for an edit of the spec; one held up only by the settle deadline is run again exactly then. |
| `Rollout.RolledOutPods` | internal/controller/rollout.go:649-682 | Behind a completed rollout with the desired hash and partition 0, every ordinal has a listed pod, owned and ready, that itself answered that it serves the non-empty version with nothing draining or swapping and, while the counters add up to less than 2^64, nothing left to restore. |
| `Rollout.ReleasedPods` | internal/controller/rollout.go:476-494 | Behind every release, each ordinal's pod was listed, owned and ready, and itself answered that it has nothing left to restore, while the counters add up to less than 2^64. |
| `Rollout.EmptyVersionNeverRolledOut` | internal/controller/fleetstate.go:175-184 | An empty resolved version is never declared rolled out. |
| `Rollout.ReportedIff` | internal/controller/workerapp_controller.go:603-615 | Outside a conflict, the scaler is resumed if and only if the pass completes the rollout, and the version shown as rolled out is the resolved one if it does and none otherwise. |
| `Reconciler.FleetApi.Update` | internal/controller/rollout.go:264-270 | A request that is not turned down is stored if and only if nobody has written since the copy was read, also when its answer gets lost and the caller sees a failure. |
| `Reconciler.CheckGate` | internal/controller/rollout.go:451-474 | The loop passes exactly when every released ordinal was read on the update revision and ready, and fails exactly when the first that was not could not be read. |
| `Reconciler.CheckLiveFleet` | internal/controller/rollout.go:151-170 | The loop finds a hazard exactly when the template or some owned live pod cannot share a fleet with the desired template; a failed list is an error. |
| `Reconciler.SampleFleet` | internal/controller/rollout.go:573-596 | A failed list, or the census of the listing in any completion order, gives the sample the decision is taken from. |
| `Reconciler.PassGates` | internal/controller/rollout.go:451-481 | The two gates, the second asked only when the first has passed, give exactly the decision's verdict. |
| `Reconciler.StepRollout` | internal/controller/rollout.go:428-502 | The step as it runs, each read made only when it is reached, releases at most one ordinal; when it clamps the partition it stops there, because the write moved the generation. |
| `Reconciler.StepRecreate` | internal/controller/rollout.go:510-556 | The drain or the restart, edited field by field, stores exactly the decided object or nothing. |
| `Reconciler.CheckServing` | internal/controller/rollout.go:676-680 | The loop over the samples, in any order, accepts exactly when all serve the version with nothing in flight. |
| `Reconciler.StepSteady` | internal/controller/rollout.go:649-682 | The steady step as it runs carries out its decision. |
| `Reconciler.StepTemplateChange` | internal/controller/rollout.go:377-416 | The template-change branch as it runs carries out its decision. |
| `Reconciler.Act` | internal/controller/rollout.go:371-423 | The branches after the scaler carry out the decision. |
| `Reconciler.ReconcileFleet` | internal/controller/rollout.go:328-423 | A pass leaves the object exactly as its decision says, or untouched when it lost the race or was turned down; an object that was written was written with the scaler quiet in that pass; and it reports the version rolled out if and only if it found it so field by field, having written nothing. |
| `Reconciler.ReportsRolledOutIff` | internal/controller/rollout.go:272-423 | Whatever becomes of the write, a lost race and a lost answer included, a pass reports the version rolled out if and only if it is. |
| `Reconciler.LostRaceReports` | internal/controller/rollout.go:272-282 | A pass whose permitted write lost the race changes nothing, shows the stored phase or Pending, nothing rolled out, and is run again in three seconds. |
| `Reconciler.ResumesOutstandingIff` | internal/controller/rollout.go:272-282 | A pass with a write still outstanding leaves the scaler running if and only if it attempted one, lost the race, and the stored phase was Ready. |
| `Protocol.CommitsWhatIsDecided` | internal/controller/rollout.go:328-423 | A pass of the transition system commits exactly the write the operator decides on from its reads, however far apart they were made and whichever of them its branch left unmade. |
| `Protocol.NextKeepsOrder` | internal/controller/rollout.go:264-270 | In every step, generations never fall, equal generations have equal specs, and the controller never reports a generation newer than its copy. |
| `Protocol.ObservedMeansCurrent` | internal/controller/rollout.go:441-444 | Once the live generation is observed, every version the controller may still act on has the live spec. |
| `StopAll.RestartFindsNothing` | internal/controller/rollout.go:532-552 | When the new template is installed, no pod exists and every version the controller may still hold asks for none. |
| `StopAll.NeverOverlaps` | internal/controller/rollout.go:374-376 | In every state of every run, no pod created before a restart is alive after it, and from a restart to the next template write every live pod runs exactly the installed template. |
| `DrainedReturn.RunKeepsEras` | internal/controller/rollout.go:404-416 | In every run the stored templates get newer with each template write, and the controller's current revision is never newer than the template. |
| `DrainedReturn.DrainedStaysGone` | internal/controller/rollout.go:510-556 | In every run in which, at each template write after a restart, the controller remembers no revision from before the restart, no pod of such a revision is ever alive again, whatever rollouts and recreates follow. |
| `DrainedReturn.ReturnsIff` | internal/controller/rollout.go:404-416 | From any fleet just given a template and free of pods from before an era, a run without template writes brings one back if and only if some version the controller may act on has a current revision from before it. |
| `DrainedReturn.FirstWriteReturnsIff` | internal/controller/rollout.go:404-416 | In every run, after the first template write that follows a restart, pods of a template from before the restart can come back if and only if the controller still remembered such a revision when that write landed. |
| `DrainedReturn.DrainedComesBack` | internal/controller/rollout.go:377-416 | For every policy and every fleet of two or more, a run that drains a, restarts as b with no pod left, is given c before its pods are up, and ends with a pod of a beside one of c. |
| `DrainedReturn.CelldDrainedComesBack` | internal/controller/rollout.go:80-170 | The same under celld's rules: 0.3 recreated as 0.4 across a breaking boundary, then a new app version. |
| `StopAll.RestartsOnlyWhenGone` | internal/controller/rollout.go:510-556 | Every restart of every run happens with the fleet entirely gone. |
| `TrueReports.RunKeepsHashes` | internal/controller/rollout.go:404-552 | In every run each stored hash is that of the stored template, and versions are only ever added. |
| `TrueReports.CompletedRunsDesired` | internal/controller/rollout.go:649-682 | In every run, behind a pass that finds the rollout completed from a report that counted truly, and with the spec unchanged since: every live pod runs the desired template and none is beyond the scale, whatever pods failed or were replaced meanwhile. |
| `TrueReports.CelldCompletedRunsDesired` | internal/controller/rollout.go:573-682 | The same for the operator with its own census. |
| `CondemnedCount.CondemnedPodCounts` | internal/controller/rollout.go:649-682 | A run in which the report is true of all pods there are, one of them beyond the new scale, and the pass that reads it reports the rollout completed over the one pod left, which runs the old template. |
| `CondemnedCount.CelldCondemnedPodCounts` | internal/controller/rollout.go:649-682 | The same under celld's rules, from 0.5 to 0.6 with accepted images. |
| `History.WriteFollows` | internal/controller/rollout.go:328-556 | What each of the six writes may change relative to the version it replaces, and between which clock readings. |
| `History.ReleasesAreSpaced` | internal/controller/rollout.go:431-494 | In every run a release's clock reading is at least ten seconds after that of every earlier release and template freeze. |
| `Spacing.LandingsAreSpaced` | internal/controller/rollout.go:431-494 | If template writes and releases land within a delay of their clock reading, a release lands at least ten seconds less the delay after every earlier one and after the template write, and never before. |
| `Spacing.ApartIff` | internal/controller/rollout.go:404-494 | That is exact for every delay, and for template writes and releases each: in all runs every release lands a given time after every earlier write of that kind if and only if the time is no more than ten seconds less the delay, or zero. |
| `History.MarkerHoldsInRuns` | internal/controller/rollout.go:374-376 | Once set, the recreate marker and the old template stay in every later version until the restart that installs the new one. |
| `History.CelldUpholdsFloor` | internal/controller/rollout.go:684-694 | No allowed change between parsed images leaves v0.3 and later, Rolling or Recreate. |
| `History.FloorNeverBroken` | internal/controller/rollout.go:371-373 | In every run with parsed images, once a stored template is at or above v0.3 no later one is below. |
| `History.SteppingStoneIff` | internal/controller/rollout.go:684-694 | Two changes by way of a third image lead from v0.3 or later to below it without a refusal under Recreate if and only if that image does not parse; directly the change is refused. |
| `History.OversizedVersionIsStone` | internal/controller/validation.go:14-33 | Some accepted image does not parse: its number exceeds Go's int. |
| `FloorBreach.AcceptedImagesBreakFloor` | internal/controller/rollout.go:371-376 | For every fleet size there is a run of accepted images from a stored template at the floor to one that parses below it. |
| `MixedFleet.CensusChecks` | internal/controller/rollout.go:151-170 | If the check finds no hazard, every revision alive at its listing is compatible with the desired template. |
| `MixedFleet.NextKeeps` | internal/controller/rollout.go:377-416 | Every step that satisfies the hypothesis keeps the live revisions within a set that is pairwise compatible from older to newer, also when pods came up between a write's census and its landing. |
| `MixedFleet.NeverMixesIncompatible` | internal/controller/rollout.go:116-170 | In every run satisfying the hypothesis, any two live pods are compatible from the older template to the newer, across abandoned and stacked rollouts. |
| `MixedFleet.CelldNeverMixes` | internal/controller/rollout.go:80-170 | The same for celld's table and durability rule: between any two live pods of different templates there is no hazard from the older to the newer. |
| `CurrentRevision.WholeFleetCheckSuffices` | internal/controller/rollout.go:151-170 | If each template write also checked what the controller may still create, no run would mix incompatible pods, with no hypothesis on pods. |
| `CurrentRevision.OldMeetsNew` | internal/controller/rollout.go:428-502 | From every fleet of two or more just given a template, whatever its pods, a run without template writes brings a pod of the current revision beside a pod of the new template. |
| `CurrentRevision.MixesIff` | internal/controller/rollout.go:151-170 | For a fleet of two or more just given a template, whatever was checked and whatever pods are up, down or missing: without any further template write it can come to mix incompatible pods if and only if the live pods, the new template and the controller's current revision do not all agree. |
| `Reach.CelldAnswerable` | internal/controller/fleetstate.go:135-214 | Every full, reachable fleet can answer the census so that the restoring gate passes. |
| `StaleRevision.CelldFleetMixes` | internal/controller/rollout.go:116-170 | For every size validation allows fleet durability, a run under celld's own rules, every template write landing on no pods but those its census saw, from a fleet just created to one with incompatible live pods: accepted images, 0.5 on fleet durability, then bucket durability, then 0.6. |
| `CensusRace.LatePodsMix` | internal/controller/rollout.go:151-170 | For every policy, three templates of which only the first and last conflict, and every fleet of two or more: a run of checked template writes in which every pod is created with a revision the last of them brought together, but one write lands on pods that came up after its census, ends with the conflicting two alive. |
| `CensusRace.CelldLatePodsMix` | internal/controller/rollout.go:116-170 | The same under celld's rules with accepted images, for every size validation allows fleet durability. |
| `OneDisruption.CelldSound` | internal/controller/rollout.go:573-596 | The census succeeds only over a full fleet. |
| `OneDisruption.ReleaseExposesOne` | internal/controller/rollout.go:484-494 | A release finds no pod down or about to be replaced, and exposes only the partition's ordinal. |
| `OneDisruption.OneDownAtATime` | internal/controller/rollout.go:428-502 | In every run from rest at most one pod is down; after a release it can only be the partition's ordinal, and every higher ordinal runs the new template. |
| `OneDisruption.CelldOneDownAtATime` | internal/controller/rollout.go:428-596 | The same for the operator with its own census, from the rest and replacement hypotheses alone. |
| `CacheLag.LaggingCacheTakesTwoDown` | internal/controller/rollout.go:456-474 | With a cache no older than the last template write, but a template installed again while still in use, every fleet of two or more has a run from rest that takes its two highest ordinals down at once. |
| `CacheLag.CelldLaggingCache` | internal/controller/rollout.go:456-474 | The same under celld's rules, with three versions of one app on one accepted image. |
| `OneDisruption.OnlyPartitionReplaced` | internal/controller/rollout.go:428-502 | After a release the only pod the controller can delete is the partition's. |
| `OneDisruption.NothingDownBeforeRelease` | internal/controller/rollout.go:396-416 | Before the first release no pod goes down, however many templates are written. |
| `Convergence.WriteFollowsPlan` | internal/controller/rollout.go:328-556 | Whatever a pass finds, the write it makes is the first of the plan the object determines and leaves the rest of it. |
| `Convergence.HistoryFollowsPlan` | internal/controller/rollout.go:328-556 | In every history of passes, conflicts included, the writes made followed by the remaining plan are the plan at the start: one freeze, n releases and at most one rescale, or drain and restart. |
| `Convergence.CooperationProgresses` | internal/controller/rollout.go:328-682 | A pass that finds what the next step of the plan waits for, and no more, writes if and only if the plan is not finished, and reports Ready if and only if it is and the fleet is not empty. |
| `Convergence.Converges` | internal/controller/rollout.go:328-682 | Once as many passes have cooperated as the plan has writes, exactly the planned writes have been made, none follows, and cooperating passes report Ready if and only if the final scale is at least one. |
| `Convergence.ReadyIsFixpoint` | internal/controller/rollout.go:649-682 | After a pass that reports Ready no later pass of the history writes. |
| `BreakingRecreate.BreakingDrainCooperates` | internal/controller/rollout.go:377-394 | A pass over a running fleet across a breaking boundary from its recreation cooperates, whatever state the fleet is in, if and only if its write lands, the object is its own, the scaler is quiet and the change is not refused outright. |
| `BreakingRecreate.BreakingRecreateConverges` | internal/controller/rollout.go:510-556 | Across a breaking boundary exactly a drain and a restart are made; after two cooperating passes nothing is written, and Ready is reported if and only if the desired scale is at least one. |
| `BreakingRecreate.ReachesReady` | internal/controller/rollout.go:510-556 | From every running fleet, three passes with findings of the operator's own reads drain, restart and report Ready. |
| `RollsToReady.ReachesReady` | internal/controller/rollout.go:328-682 | From every fleet that may be rolled to a template, whatever is left of an earlier rollout, the pods below the partition running any compatible template: passes whose findings are the operator's own reads of the fleet, updated as far as it is released, make exactly the planned writes and then report Ready. |
| `RollsToReady.RollsEveryPod` | internal/controller/rollout.go:396-494 | For every number n of pods, n + 2 such passes make one template write, n releases, and report Ready. |
| `DeployTracker.Tracker.constructor` | internal/controller/deploytracker.go:73-78 | A tracker starts empty, with a minute for an interval that is not positive. |
| `DeployTracker.Tracker.Lookup` | internal/controller/deploytracker.go:159-165 | A cached entry is served if and only if it is of the same identity and unexpired. |
| `DeployTracker.Tracker.DropExpired` | internal/controller/deploytracker.go:173-177 | The first eviction loop, in any order, keeps exactly the unexpired entries. |
| `DeployTracker.Tracker.MakeRoom` | internal/controller/deploytracker.go:172-184 | At capacity the expired entries go, and an arbitrary one if that is not enough. |
| `DeployTracker.Tracker.Store` | internal/controller/deploytracker.go:167-187 | The pointer is stored, or on failure the caller's last known version with the failure. |
| `DeployTracker.Tracker.PointerVersion` | internal/controller/deploytracker.go:147-188 | The whole call: an unexpired entry of the same identity unchanged, or the stored outcome of the read. |
| `DeployTracker.Tracker.Forget` | internal/controller/deploytracker.go:267-274 | Only the key's entry is removed. |
| `DeployTracker.EvictsLeast` | internal/controller/deploytracker.go:171-184 | Below 1024 entries nothing is dropped; at the bound every expired entry is, and of the others at most one, and none if fewer than 1024 are left. |
| `DeployTracker.ServedForAnInterval` | internal/controller/deploytracker.go:159-187 | A stored outcome, failures included, is served for exactly an interval from its storing, to its own identity alone, with the pointer, or on failure the last version known to the caller. |
| `DeployTracker.CacheHistory` | internal/controller/deploytracker.go:147-188 | For any interleaving of callers, failures, identity changes, evictions and Forgets: a version returned without error was read for the same identity, stored at most the delay after that read, and returned less than an interval after being stored; one returned with an error was once read for that identity; at most 1024 entries. |
| `DeployTracker.CacheBounded` | internal/controller/deploytracker.go:171-185 | The cache never exceeds 1024 entries. |
| `DeployTracker.AgeIff` | internal/controller/deploytracker.go:163-186 | For every interval, delay and bound: every version returned without error was read less than the bound ago if and only if the bound is at least the interval and the delay together, since entries are dated when stored. |
| `DeployTracker.SteadyReplies` | internal/controller/deploytracker.go:151-188 | If the Secret never changes between naming the identity and reading the credentials, every version a caller is told, with or without an error, was read under that caller's own identity. |
| `DeployTracker.RotationMisattributes` | internal/controller/deploytracker.go:151-166 | If it does change there, a version can be returned without error that was never read under the caller's identity. |
| `AppVersion.ResolveAppVersion` | internal/controller/deploytracker.go:200-265 | A pinned version resolves to itself; auto resolves to the pointer or the cached version, or else to what the live template carries; each condition is appended in exactly one case, and at most one is. |
| `AppVersion.SameTemplateIff` | internal/controller/fleet_resources.go:187-324 | Two specs build the same template if and only if image, durability up to its default, config hash, everything else and, unless InPlace, the version agree; pods run on fleet durability if and only if the spec asks for anything but bucket or nothing; and the template's version reads back. |
| `AppVersion.OutageBuildsSameTemplateIff` | internal/controller/fleet_resources.go:314-324 | With spec and Secrets unchanged and no version known, a pass builds the fleet's own template if and only if it could read the StatefulSet or the template carries no version. |
| `AppVersion.InPlaceNeverRolls` | internal/controller/fleet_resources.go:314-321 | Under InPlace the template does not depend on the version. |
| `AppVersion.OutageWritesNoTemplate` | internal/controller/rollout.go:358-359 | During such an outage no write changes the template or its hash, and only a recreate already begun drains or restarts. |
| `AppVersion.OutageHoldsVersion` | internal/controller/deploytracker.go:240-247 | A failed read with a cached version resolves to that version. |
| `ConfigDigest.ConfigBytes` | internal/controller/rollout.go:290-324 | The nested loops feed the digest a function of the references and their Secrets alone, or end with an error if and only if a read fails. |
| `ConfigDigest.SecretBytes` | internal/controller/rollout.go:319-321 | The loop over sorted keys writes the Secret's entries in byte order of their keys. |
| `ConfigDigest.JoinIsInjective` | internal/controller/rollout.go:302-307 | NUL-terminated NUL-free parts decode uniquely. |
| `ConfigDigest.RefDeterminesName` | internal/controller/rollout.go:308-322 | One reference's bytes determine the name it refers to, whatever the Secrets hold. |
| `ConfigDigest.RefDeterminesSecret` | internal/controller/rollout.go:308-322 | One reference's bytes determine whether its Secret exists and all it holds. |
| `ConfigDigest.RotationIsSeen` | internal/controller/rollout.go:290-324 | With NUL-free data, changing, creating or deleting one referenced Secret changes the digested bytes, by either or both references. |
| `ConfigDigest.NulHidesChange` | internal/controller/rollout.go:302-322 | A NUL in a value can hide a change: two different Secrets, the same bytes. |
| `ConfigDigest.BothChangesCanHide` | internal/controller/rollout.go:308-322 | When both Secrets change at once, for any two names there is a change the bytes do not show. |
| `Annotations.Annotated.ReconcileAnnotations` | internal/controller/workerapp_controller.go:718-745 | The two loops leave the live annotations less what was owned and is not desired, overlaid with the desired ones, and the new inventory. |
| `Annotations.ReconciledLeaves` | internal/controller/workerapp_controller.go:718-745 | Key by key: desired keys have their desired values, other keys stay with theirs if and only if the inventory, or on an Ingress the three old keys, does not claim them, and the new inventory names the desired keys but not itself. |
| `Annotations.HistorySplits` | internal/controller/workerapp_controller.go:718-745 | After any history of applications and others' edits, which keys are owned and what others hold are functions of the events alone. |
| `Annotations.EndsWithLastDesired` | internal/controller/workerapp_controller.go:718-745 | After any history that ends with an application, Ingress or not, the object is exactly others' entries, the last desired map and its inventory. |
| `Annotations.ForeignSurvivesUnclaimed` | internal/controller/workerapp_controller.go:718-745 | With applications only, others keep exactly the entries neither owned at first nor ever desired. |
| `Annotations.Idempotent` | internal/controller/workerapp_controller.go:718-745 | Applying the same map again changes nothing. |
| `CasHammer.CountWinners` | hack/cas-hammer/main.go:140-168 | For every order of the answers, the count under the mutex is the number of answers that say stored, and a hard error is noticed if and only if some answer is neither that nor one of the two clean losses. |
| `CasHammer.RunPhase` | hack/cas-hammer/main.go:115-179 | A phase exits if and only if some round has an answer outside the protocol, and otherwise counts exactly the rounds in which not just one object was stored. |
| `CasHammer.VerdictIff` | hack/cas-hammer/main.go:115-224 | The verdict of a phase is a function of the answers alone: how many say stored in each round, and whether any is another error. |
| `CasHammer.AtomicStorePasses` | hack/cas-hammer/main.go:115-206 | Against an atomic store every phase, create or update, of any number of rounds and writers in any orders, ends with no violation. |
| `CasHammer.NoViolationIff` | hack/cas-hammer/main.go:169-173 | A phase counts no violation if and only if every round had exactly one winner. |
| `CasHammer.CreateHasOneWinner` | hack/cas-hammer/main.go:183-192 | Against an atomic store, for every number of writers and every order, exactly one conditional create of an absent key wins. |
| `CasHammer.UpdateHasOneWinner` | hack/cas-hammer/main.go:197-206 | With strong tags, the single tag read before the race and the hammer's own bodies, exactly one conditional overwrite wins. |
| `CasHammer.SecondWins` | hack/cas-hammer/main.go:122-138 | A first writer whose object has the seed's tag lets another win too. |
| `CasHammer.OneWinnerIff` | hack/cas-hammer/main.go:197-206 | Every order has exactly one winner if and only if no writer stores an object with the seed's tag. |

## Left out

- Rollout.RolledOutPods: what was observed is each pod's own answer at its own moment of the sweep, not one moment for all.
- StopAll.NeverOverlaps: stops at the next template write, after which it can fail; `DrainedReturn` gives the exact condition and the failing run.
- History.FloorNeverBroken: asks that every spec's image parses, which validation guarantees only for numbers within Go's int.
- ConfigDigest.RotationIsSeen: says nothing of a NUL in a value beyond the counterexample, because which such values decode uniquely depends on all the other entries.
- DeployTracker.CacheHistory: a Secret read that fails before the cache is consulted, which returns an error and no version, is not an event.
- Creating a StatefulSet that does not exist (internal/controller/rollout.go:342-350): it is the initial state of the transition system.
- Reason texts, waiting messages, requeue delays beyond whether and until when a pass waits, and the condition list other than the deploy-tracking ones.
- JSON decoding itself, beyond which values decode into which fields, including Go's case-insensitive field matching; HTTP, S3 and Kubernetes clients; SHA-256; time formatting and parsing of the settle annotation beyond "no deadline when it does not parse".
- Pods that carry the fleet's labels without belonging to it: the listing may contain them, and the census then fails closed, but the transition system has none.
- The builders of Services, routes, policies, budgets and the KEDA query, the HTTPRoute retry latch, trust allowlists, metrics, leader election and flags: they build records or check membership, and no safety property of the rollout passes through them.
- celld's own behaviour (sealing, replication, handoff) is not in this repository.

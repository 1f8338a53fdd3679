/** What one reconcile pass decides about the fleet's StatefulSet, as a function of what it read. */
module Rollout {
  import opened Prelude
  import opened Compatibility
  import opened Census

  datatype Phase = Pending | Ready | RollingOut | Recreating | Degraded

  datatype Strategy = Rolling | Recreate

  /** The parts of a WorkerApp the rollout reads. */
  datatype App = App(
    fleet: string, image: string, strategy: Strategy, autoscaling: bool, replicas: Option<nat>, phase: Option<Phase>)

  function DesiredReplicas(app: App): nat { if app.replicas.Some? then app.replicas.value else 3 }

  /** templateHash: the digest is taken to be injective. */
  datatype Fingerprint = Fingerprint(of: Template)

  datatype Spec = Spec(template: Template, replicas: nat, partition: nat)

  /** Revisions are named by the template they hold. */
  datatype Status = Status(
    observedGeneration: nat, updateRevision: Option<Template>,
    replicas: nat, readyReplicas: nat, updatedReplicas: nat)

  /** The StatefulSet: its spec, our three annotations, and what its controller reports. */
  datatype Sts = Sts(
    spec: Spec, hash: Option<Fingerprint>, recreating: bool, settleUntil: Option<int>,
    generation: nat, status: Status, controlled: bool)

  // ----- what a pass reads, and what it makes of it -----

  /**
    What the state machine is told from outside: which templates may share a fleet, which runtime
    changes are refused outright, and what a listing with the pods' answers shows of the fleet.
   */
  datatype Policy = Policy(
    compatible: (Template, Template) -> bool,
    refused: (string, string, bool) -> bool,
    observe: (seq<PodItem>, seq<Response>, string, nat) -> Option<Sample>)

  /** The rules of celld's release notes, and the census as observeFleet takes it. */
  function CelldPolicy(): Policy {
    Policy(
      (from, to) => Compatible(from, to),
      (oldImage, image, recreate) => RuntimeChangeRefusal(oldImage, image, recreate) != Allowed,
      (pods, answers, fleet, n: nat) => ObserveFleet(pods, answers, fleet, n))
  }

  /** A pod read through the cached client. */
  datatype GateRead = NotFound | ReadFailed | Found(pod: PodItem)

  /** Everything a pass reads besides the StatefulSet. None and Err stand for failed calls. */
  datatype Reads = Reads(
    paused: Result<bool>,
    census: Option<seq<PodItem>>,
    gate: map<nat, GateRead>,
    listing: Option<seq<PodItem>>,
    answers: seq<Response>,
    checkedAt: int,
    stampedAt: int)

  datatype GateVerdict = Passed | Wait | Fail

  /**
    The findings the pass branches on: the scaler's state, the refusal, the live-fleet hazard,
    gate 1, the fleet sample, the number of listed pods, and the two clock readings.
   */
  datatype Findings = Findings(
    paused: Result<bool>, refused: bool, hazard: Result<bool>, gate: GateVerdict,
    sample: Option<Sample>, listed: Option<nat>, checkedAt: int, stampedAt: int)

  /** Some listed pod of this fleet cannot share it with the desired template. */
  predicate LivePodBreaks(policy: Policy, pods: seq<PodItem>, desired: Template) {
    exists i :: 0 <= i < |pods| && pods[i].owned && !policy.compatible(pods[i].template, desired)
  }

  /** liveFleetBreakingReason: the templates, then the listed pods; Err when the list fails. */
  function LiveHazard(
    policy: Policy, existing: Template, desired: Template, census: Option<seq<PodItem>>): Result<bool>
  {
    if !policy.compatible(existing, desired) then Ok(true)
    else if census.None? then Err
    else Ok(LivePodBreaks(policy, census.value, desired))
  }

  /** Gate 1 for one ordinal: it runs the update revision and is ready. */
  predicate Updated(read: GateRead, revision: Template) {
    read.Found? && read.pod.template == revision && PodReady(read.pod)
  }

  function GateReadOf(gate: map<nat, GateRead>, ord: nat): GateRead { if ord in gate then gate[ord] else NotFound }

  predicate AllUpdated(gate: map<nat, GateRead>, revision: Template, lo: nat, hi: nat) {
    forall ord: nat :: lo <= ord < hi ==> Updated(GateReadOf(gate, ord), revision)
  }

  /** The first ordinal that does not pass could not be read at all. */
  predicate GateErrs(gate: map<nat, GateRead>, revision: Template, lo: nat, hi: nat) {
    exists ord: nat :: lo <= ord < hi && GateReadOf(gate, ord) == ReadFailed && AllUpdated(gate, revision, lo, ord)
  }

  /** Gate 1 over the released ordinals. */
  function GateOf(sts: Sts, gate: map<nat, GateRead>): GateVerdict {
    var revision, lo, hi := sts.status.updateRevision, sts.spec.partition, sts.spec.replicas;
    if revision.None? then Wait
    else if AllUpdated(gate, revision.value, lo, hi) then Passed
    else if GateErrs(gate, revision.value, lo, hi) then Fail
    else Wait
  }

  /** This ordinal's pod was read on the update revision, with its Ready condition true, and not being deleted. */
  predicate FoundUpdated(sts: Sts, gate: map<nat, GateRead>, ord: nat) {
    && ord in gate && gate[ord].Found? && Some(gate[ord].pod.template) == sts.status.updateRevision
    && gate[ord].pod.readyCondition == Some(true) && !gate[ord].pod.deleting
  }

  /** The released ordinals up to this one. */
  predicate FoundUpdatedTo(sts: Sts, gate: map<nat, GateRead>, end: nat) {
    forall ord: nat :: sts.spec.partition <= ord < end ==> FoundUpdated(sts, gate, ord)
  }

  lemma UpdatedIsFound(sts: Sts, gate: map<nat, GateRead>, end: nat)
    requires sts.status.updateRevision.Some?
    ensures AllUpdated(gate, sts.status.updateRevision.value, sts.spec.partition, end) <==>
            FoundUpdatedTo(sts, gate, end)
  {
    if AllUpdated(gate, sts.status.updateRevision.value, sts.spec.partition, end) {
      forall ord: nat | sts.spec.partition <= ord < end ensures FoundUpdated(sts, gate, ord) {
        assert Updated(GateReadOf(gate, ord), sts.status.updateRevision.value);
      }
    }
    if FoundUpdatedTo(sts, gate, end) {
      forall ord: nat | sts.spec.partition <= ord < end
        ensures Updated(GateReadOf(gate, ord), sts.status.updateRevision.value)
      {
        assert FoundUpdated(sts, gate, ord);
      }
    }
  }

  /** Gate 1 passes when every released ordinal is found updated; it fails when the first that is not cannot be read. */
  lemma GateIff(sts: Sts, gate: map<nat, GateRead>)
    ensures GateOf(sts, gate) == Passed <==>
            sts.status.updateRevision.Some? && FoundUpdatedTo(sts, gate, sts.spec.replicas)
    ensures GateOf(sts, gate) == Fail <==>
            && sts.status.updateRevision.Some?
            && exists ord: nat :: sts.spec.partition <= ord < sts.spec.replicas && ord in gate
                 && gate[ord] == ReadFailed && FoundUpdatedTo(sts, gate, ord)
  {
    if sts.status.updateRevision.Some? {
      var revision, lo, hi := sts.status.updateRevision.value, sts.spec.partition, sts.spec.replicas;
      UpdatedIsFound(sts, gate, hi);
      if ord: nat :| lo <= ord < hi && GateReadOf(gate, ord) == ReadFailed && AllUpdated(gate, revision, lo, ord) {
        UpdatedIsFound(sts, gate, ord);
      }
      if ord: nat :| lo <= ord < hi && ord in gate && gate[ord] == ReadFailed && FoundUpdatedTo(sts, gate, ord) {
        UpdatedIsFound(sts, gate, ord);
        assert GateReadOf(gate, ord) == ReadFailed;
      }
    }
  }

  /** The live fleet is breaking if the template or an owned pod is; the list must succeed only for the pods. */
  lemma LiveHazardIff(policy: Policy, existing: Template, desired: Template, census: Option<seq<PodItem>>)
    ensures LiveHazard(policy, existing, desired, census) == Ok(true) <==>
            || !policy.compatible(existing, desired)
            || (census.Some? &&
                exists i :: 0 <= i < |census.value| && census.value[i].owned
                  && !policy.compatible(census.value[i].template, desired))
    ensures LiveHazard(policy, existing, desired, census) == Err <==>
            policy.compatible(existing, desired) && census.None?
  {
  }

  function SampleOfFleet(
    policy: Policy, fleet: string, replicas: nat, listing: Option<seq<PodItem>>, answers: seq<Response>): Option<Sample>
  {
    if listing.None? then None else policy.observe(listing.value, answers, fleet, replicas)
  }

  function FindingsOf(policy: Policy, app: App, desired: Template, existing: Sts, r: Reads): Findings {
    Findings(
      r.paused,
      policy.refused(existing.spec.template.image, app.image, app.strategy == Recreate),
      LiveHazard(policy, existing.spec.template, desired, r.census),
      GateOf(existing, r.gate),
      SampleOfFleet(policy, app.fleet, existing.spec.replicas, r.listing, r.answers),
      if r.listing.Some? then Some(|r.listing.value|) else None,
      r.checkedAt, r.stampedAt)
  }

  // ----- the decision -----

  datatype Outcome = Outcome(phase: Phase, partition: nat, requeue: int, rolledOut: bool)

  datatype Kind = Freeze | Clamp | Release | Drain | Restart | Rescale

  datatype Write = Write(kind: Kind, sts: Sts)

  /** The write a pass attempts, if any, and what it reports when that write goes through. */
  datatype Decision = Decision(write: Option<Write>, outcome: Result<Outcome>)

  const SETTLE: int := 10 * SECOND

  function Failing(): Decision { Decision(None, Err) }

  function Waiting(phase: Phase, partition: nat, requeue: int): Decision {
    Decision(None, Ok(Outcome(phase, partition, requeue, false)))
  }

  function Writing(kind: Kind, sts: Sts, phase: Phase, partition: nat): Decision {
    Decision(Some(Write(kind, sts)), Ok(Outcome(phase, partition, 10 * SECOND, false)))
  }

  /** A step of an unfinished rollout: never Ready, and a write always comes with a report. */
  predicate Unfinished(d: Decision) {
    && (d.write.Some? ==> d.outcome.Ok?)
    && (d.outcome.Ok? ==> d.outcome.value.phase != Ready && !d.outcome.value.rolledOut)
  }

  predicate TemplateChanged(existing: Sts, desired: Template) { existing.hash != Some(Fingerprint(desired)) }

  /** The whole fleet is there, answers, and reports a zero restoring sum. */
  predicate FleetSettled(f: Findings) { f.sample.Some? && f.sample.value.restoring == 0 }

  predicate Settling(sts: Sts, f: Findings) { sts.settleUntil.Some? && f.checkedAt < sts.settleUntil.value }

  function ClampPartition(sts: Sts): Sts { sts.(spec := sts.spec.(partition := sts.spec.replicas)) }

  function ReleaseNext(sts: Sts, stampedAt: int): Sts
    requires sts.spec.partition > 0
  {
    sts.(spec := sts.spec.(partition := sts.spec.partition - 1), settleUntil := Some(stampedAt + SETTLE))
  }

  function RolloutStep(sts: Sts, f: Findings): (d: Decision)
    requires sts.spec.partition > 0
    ensures Unfinished(d)
  {
    var partition, replicas := sts.spec.partition, sts.spec.replicas;
    if partition > replicas then Writing(Clamp, ClampPartition(sts), RollingOut, replicas)
    else if sts.status.observedGeneration != sts.generation then Waiting(RollingOut, partition, 10 * SECOND)
    else if Settling(sts, f) then Waiting(RollingOut, partition, sts.settleUntil.value - f.checkedAt)
    else if sts.status.updateRevision.None? || f.gate == Wait then Waiting(RollingOut, partition, 10 * SECOND)
    else if f.gate == Fail then Failing()
    else if !FleetSettled(f) then Waiting(RollingOut, partition, 10 * SECOND)
    else Writing(Release, ReleaseNext(sts, f.stampedAt), RollingOut, partition - 1)
  }

  function DrainFleet(existing: Sts): Sts {
    existing.(spec := existing.spec.(replicas := 0), recreating := true)
  }

  function RestartFleet(existing: Sts, desired: Template, replicas: nat): Sts {
    existing.(spec := Spec(desired, replicas, 0), hash := Some(Fingerprint(desired)), recreating := false)
  }

  function RecreateStep(app: App, existing: Sts, desired: Template, f: Findings): (d: Decision)
    ensures Unfinished(d)
  {
    if existing.spec.replicas != 0 then Writing(Drain, DrainFleet(existing), Recreating, 0)
    else if f.listed.None? then Failing()
    else if
      || existing.status.observedGeneration != existing.generation || f.listed.value > 0 || existing.status.replicas > 0
    then
      Waiting(Recreating, 0, 10 * SECOND)
    else Writing(Restart, RestartFleet(existing, desired, DesiredReplicas(app)), Recreating, 0)
  }

  /** Every swept pod serves the version, with nothing draining or swapping. */
  predicate Serving(states: map<string, PodState>, appVersion: string) {
    forall name :: name in states ==>
      var d := states[name].deployment;
      d.Some? && d.value.version == appVersion && d.value.draining == 0 && d.value.swapping == 0
  }

  predicate StatusConverged(sts: Sts) {
    && sts.status.readyReplicas == sts.spec.replicas && sts.status.updatedReplicas == sts.spec.replicas
    && sts.status.observedGeneration == sts.generation
  }

  predicate ScaleIsOurs(app: App, sts: Sts) { !app.autoscaling && sts.spec.replicas != DesiredReplicas(app) }

  function RescaleFleet(existing: Sts, replicas: nat): Sts { existing.(spec := existing.spec.(replicas := replicas)) }

  function SteadyFleet(app: App, existing: Sts, appVersion: string, f: Findings): (d: Decision)
    ensures d.write.Some? ==> Unfinished(d) && ScaleIsOurs(app, existing)
    ensures d.outcome.Ok?
  {
    if ScaleIsOurs(app, existing) then Writing(Rescale, RescaleFleet(existing, DesiredReplicas(app)), Pending, 0)
    else if !StatusConverged(existing) || !FleetSettled(f) || !Serving(f.sample.value.states, appVersion) then
      Waiting(Pending, 0, 15 * SECOND)
    else Decision(None, Ok(Outcome(Ready, 0, 30 * SECOND, true)))
  }

  function FreezeTemplate(existing: Sts, desired: Template, stampedAt: int): Sts {
    existing.(
      spec := Spec(desired, existing.spec.replicas, existing.spec.replicas),
      hash := Some(Fingerprint(desired)),
      settleUntil := Some(stampedAt + SETTLE))
  }

  function ChangeTemplate(app: App, existing: Sts, desired: Template, f: Findings): (d: Decision)
    ensures Unfinished(d)
  {
    if f.hazard.Err? then Failing()
    else if f.hazard.value && app.strategy != Recreate then Waiting(Degraded, 0, 0)
    else if app.strategy == Recreate then RecreateStep(app, existing, desired, f)
    else Writing(Freeze, FreezeTemplate(existing, desired, f.stampedAt), RollingOut, existing.spec.replicas)
  }

  /** A pass with any of these outstanding may write, so it must find the scaler quiet first. */
  predicate MustPause(app: App, existing: Sts, desired: Template) {
    || TemplateChanged(existing, desired) || existing.spec.partition > 0 || existing.recreating
    || ScaleIsOurs(app, existing)
  }

  /**
    reconcileFleet for a StatefulSet that exists. Whichever of the six writes it attempts, the pass
    has first found the scaler quiet; and only a pass that attempts no write reports Ready.
   */
  function Decide(app: App, desired: Template, appVersion: string, existing: Sts, f: Findings): (d: Decision)
    ensures d.write.Some? ==> f.paused == Ok(true) && existing.controlled && !f.refused && d.outcome.Ok?
    ensures d.outcome.Ok? && d.outcome.value.phase == Ready ==>
              && d.write.None? && existing.hash == Some(Fingerprint(desired))
              && existing.spec.partition == 0 && !existing.recreating
  {
    if !existing.controlled then Failing()
    else if MustPause(app, existing, desired) && f.paused.Err? then Failing()
    else if MustPause(app, existing, desired) && !f.paused.value then Waiting(RollingOut, 0, 5 * SECOND)
    else if f.refused then Waiting(Degraded, 0, 60 * SECOND)
    else if existing.recreating then RecreateStep(app, existing, desired, f)
    else if TemplateChanged(existing, desired) then ChangeTemplate(app, existing, desired, f)
    else if existing.spec.partition > 0 then RolloutStep(existing, f)
    else SteadyFleet(app, existing, appVersion, f)
  }

  /** The scale the spec asks for. */
  predicate AsksFor(app: App, n: nat) { app.replicas == Some(n) || (app.replicas == None && n == 3) }

  /** The fleet is being recreated, or a template change that could be checked is to recreate it. */
  predicate MayRecreate(app: App, existing: Sts, desired: Template, f: Findings) {
    || existing.recreating
    || (existing.hash != Some(Fingerprint(desired)) && f.hazard.Ok? && app.strategy == Recreate)
  }

  /** Neither being recreated nor given a new template. */
  predicate Settled(existing: Sts, desired: Template) {
    !existing.recreating && existing.hash == Some(Fingerprint(desired))
  }

  /** Exactly when each kind of write is made, and what it stores, field by field. */
  predicate Permits(app: App, desired: Template, existing: Sts, f: Findings, w: Write) {
    var spec, status := existing.spec, existing.status;
    && f.paused == Ok(true) && existing.controlled && !f.refused
    && match w.kind
       case Freeze =>
         && !existing.recreating && existing.hash != Some(Fingerprint(desired)) && app.strategy == Rolling
         && f.hazard == Ok(false)
         && w.sts == existing.(
              spec := Spec(desired, spec.replicas, spec.replicas), hash := Some(Fingerprint(desired)),
              settleUntil := Some(f.stampedAt + 10 * SECOND))
       case Clamp =>
         && Settled(existing, desired) && spec.partition > spec.replicas
         && w.sts == existing.(spec := Spec(spec.template, spec.replicas, spec.replicas))
       case Release =>
         && Settled(existing, desired) && 0 < spec.partition <= spec.replicas
         && status.observedGeneration == existing.generation && status.updateRevision.Some?
         && (existing.settleUntil.Some? ==> existing.settleUntil.value <= f.checkedAt)
         && f.gate == Passed && f.sample.Some? && f.sample.value.restoring == 0
         && w.sts == existing.(
              spec := Spec(spec.template, spec.replicas, spec.partition - 1),
              settleUntil := Some(f.stampedAt + 10 * SECOND))
       case Drain =>
         && MayRecreate(app, existing, desired, f) && spec.replicas != 0
         && w.sts == existing.(spec := Spec(spec.template, 0, spec.partition), recreating := true)
       case Restart =>
         && MayRecreate(app, existing, desired, f) && spec.replicas == 0
         && status.observedGeneration == existing.generation && status.replicas == 0 && f.listed == Some(0)
         && AsksFor(app, w.sts.spec.replicas)
         && w.sts == existing.(
              spec := Spec(desired, w.sts.spec.replicas, 0), hash := Some(Fingerprint(desired)), recreating := false)
       case Rescale =>
         && Settled(existing, desired) && spec.partition == 0 && !app.autoscaling
         && AsksFor(app, w.sts.spec.replicas) && w.sts.spec.replicas != spec.replicas
         && w.sts == existing.(spec := Spec(spec.template, w.sts.spec.replicas, 0))
  }

  /** The nested branches of the pass make each write under exactly its own conditions. */
  lemma WritesIffPermitted(app: App, desired: Template, appVersion: string, existing: Sts, f: Findings, w: Write)
    ensures Decide(app, desired, appVersion, existing, f).write == Some(w) <==> Permits(app, desired, existing, f, w)
  {
  }

  function ConflictOutcome(app: App): Outcome {
    Outcome(if app.phase.Some? then app.phase.value else Pending, 0, 3 * SECOND, false)
  }

  /** The API server's part of a write: the generation counts the changes of the spec. */
  function Stored(existing: Sts, written: Sts): Sts {
    written.(generation := if written.spec != existing.spec then existing.generation + 1 else existing.generation)
  }

  // ----- what a pass promises -----

  predicate Completes(d: Decision) { d.outcome.Ok? && d.outcome.value.rolledOut }

  /** Serving exactly this version, with nothing draining or swapping. */
  predicate Serves(s: PodState, appVersion: string) {
    s.deployment.Some? && s.deployment.value == Deployment(appVersion, s.deployment.value.generation, 0, 0)
  }

  /** A completed rollout, field by field. */
  predicate RolledOut(app: App, desired: Template, appVersion: string, existing: Sts, f: Findings) {
    var spec, status := existing.spec, existing.status;
    && existing.controlled && !f.refused
    && existing.hash == Some(Fingerprint(desired)) && spec.partition == 0 && !existing.recreating
    && (app.autoscaling || AsksFor(app, spec.replicas))
    && status.readyReplicas == status.updatedReplicas == spec.replicas
    && status.observedGeneration == existing.generation
    && f.sample.Some? && f.sample.value.restoring == 0
    && forall name :: name in f.sample.value.states ==> Serves(f.sample.value.states[name], appVersion)
  }

  /**
    Truthful completion: a pass reports the version rolled out exactly when the template is the desired
    one with no release or recreate outstanding, the scale is not ours to change, the controller
    reports this generation with every replica ready and updated, and a census of at least one pod
    found every ordinal ready, a zero restoring sum, and everyone serving exactly that version.
   */
  lemma RolledOutIff(app: App, desired: Template, appVersion: string, existing: Sts, f: Findings)
    ensures Completes(Decide(app, desired, appVersion, existing, f)) <==>
            RolledOut(app, desired, appVersion, existing, f)
  {
  }

  // ----- what a pass shows -----

  /** The pass gets as far as the branches: the object is its own, and the scaler quiet if it may write. */
  predicate Starts(app: App, existing: Sts, desired: Template, f: Findings) {
    existing.controlled && (MustPause(app, existing, desired) ==> f.paused == Ok(true))
  }

  /** The step of a rollout in which an ordinal could not be read. */
  predicate GateUnreadable(existing: Sts, f: Findings) {
    && 0 < existing.spec.partition <= existing.spec.replicas && f.gate == Fail
    && existing.status.observedGeneration == existing.generation && existing.status.updateRevision.Some?
    && (existing.settleUntil.Some? ==> existing.settleUntil.value <= f.checkedAt)
  }

  /** Exactly when a pass shows each phase; when it shows none, it fails and is retried. */
  predicate InPhase(app: App, desired: Template, appVersion: string, existing: Sts, f: Findings, phase: Phase) {
    var changed := existing.hash != Some(Fingerprint(desired)) && !existing.recreating;
    match phase
    case Degraded =>
      && Starts(app, existing, desired, f)
      && (f.refused || (changed && app.strategy == Rolling && f.hazard == Ok(true)))
    case Recreating =>
      && Starts(app, existing, desired, f) && !f.refused && MayRecreate(app, existing, desired, f)
      && (existing.spec.replicas != 0 || f.listed.Some?)
    case RollingOut =>
      || (existing.controlled && MustPause(app, existing, desired) && f.paused == Ok(false))
      || (&& Starts(app, existing, desired, f) && !f.refused
          && if changed then app.strategy == Rolling && f.hazard == Ok(false)
             else Settled(existing, desired) && existing.spec.partition > 0 && !GateUnreadable(existing, f))
    case Pending =>
      && Starts(app, existing, desired, f) && !f.refused && Settled(existing, desired)
      && existing.spec.partition == 0 && !RolledOut(app, desired, appVersion, existing, f)
    case Ready => RolledOut(app, desired, appVersion, existing, f)
  }

  lemma PhaseIff(app: App, desired: Template, appVersion: string, existing: Sts, f: Findings, phase: Phase)
    ensures var d := Decide(app, desired, appVersion, existing, f);
            d.outcome.Ok? && d.outcome.value.phase == phase <==> InPhase(app, desired, appVersion, existing, f, phase)
  {
  }

  /** The object as a decision whose write lands leaves it. */
  function LeftBy(d: Decision, existing: Sts): Sts { if d.write.Some? then d.write.value.sts else existing }

  /** While a rollout goes on, the partition a pass shows is that of the object it leaves. */
  lemma ShowsPartition(app: App, desired: Template, appVersion: string, existing: Sts, f: Findings)
    requires InPhase(app, desired, appVersion, existing, f, RollingOut) && f.paused == Ok(true)
    ensures var d := Decide(app, desired, appVersion, existing, f);
            d.outcome.Ok? && d.outcome.value.partition == LeftBy(d, existing).spec.partition
  {
    PhaseIff(app, desired, appVersion, existing, f, RollingOut);
  }

  /** Nothing but the settle deadline, still ahead, holds up the next release. */
  predicate AwaitsDeadline(app: App, desired: Template, existing: Sts, f: Findings) {
    && Starts(app, existing, desired, f) && !f.refused && Settled(existing, desired)
    && 0 < existing.spec.partition <= existing.spec.replicas
    && existing.status.observedGeneration == existing.generation
    && existing.settleUntil.Some? && f.checkedAt < existing.settleUntil.value
  }

  /**
    A pass that reports is always run again, unless it waits for an edit of the spec; and one that waits for the settle
    deadline is run again when it is over, not sooner.
   */
  lemma RunsAgain(app: App, desired: Template, appVersion: string, existing: Sts, f: Findings)
    ensures var d := Decide(app, desired, appVersion, existing, f);
            d.outcome.Ok? ==>
              && d.outcome.value.requeue >= 0
              && (d.outcome.value.requeue == 0 <==> d.outcome.value.phase == Degraded && !f.refused)
              && (AwaitsDeadline(app, desired, existing, f) ==>
                    f.checkedAt + d.outcome.value.requeue == existing.settleUntil.value)
  {
  }

  /** What the listing and the answers of a settled fleet show of one ordinal. */
  lemma SettledPod(app: App, existing: Sts, r: Reads, f: Findings, ord: nat) returns (i: nat, s: PodState)
    requires f.sample == SampleOfFleet(CelldPolicy(), app.fleet, existing.spec.replicas, r.listing, r.answers)
    requires FleetSettled(f) && ord < existing.spec.replicas
    ensures r.listing.Some? && i < |r.listing.value| == |r.answers|
    ensures Answers(r.listing.value[i], r.answers[i], PodName(app.fleet, ord), s)
    ensures PodName(app.fleet, ord) in f.sample.value.states && s == f.sample.value.states[PodName(app.fleet, ord)]
    ensures Sum(Counters(Polls(r.listing.value, r.answers))) < TWO_64 ==> s.restoring == 0
  {
    i, s := SettledOrdinal(r.listing.value, r.answers, app.fleet, existing.spec.replicas, f.sample.value, ord);
  }

  /**
    Behind a completed rollout, each ordinal's pod was listed, owned and ready, and itself answered that it serves
    the version with nothing in flight and, unless the counters add up to 2^64, nothing left to restore.
   */
  lemma RolledOutPods(app: App, desired: Template, appVersion: string, existing: Sts, r: Reads, f: Findings, ord: nat)
    returns (i: nat, s: PodState)
    requires f.sample == SampleOfFleet(CelldPolicy(), app.fleet, existing.spec.replicas, r.listing, r.answers)
    requires Completes(Decide(app, desired, appVersion, existing, f)) && ord < existing.spec.replicas
    ensures existing.hash == Some(Fingerprint(desired)) && existing.spec.partition == 0
    ensures r.listing.Some? && i < |r.listing.value| == |r.answers|
    ensures Answers(r.listing.value[i], r.answers[i], PodName(app.fleet, ord), s)
    ensures s.deployment.Some? && s.deployment.value.version == appVersion != ""
    ensures s.deployment.value.draining == 0 && s.deployment.value.swapping == 0
    ensures Sum(Counters(Polls(r.listing.value, r.answers))) < TWO_64 ==> s.restoring == 0
  {
    RolledOutIff(app, desired, appVersion, existing, f);
    i, s := SettledPod(app, existing, r, f, ord);
  }

  /**
    Behind a release, every ordinal's pod, old or new, was listed, owned and ready, and itself answered that it has
    nothing left to restore, unless the counters add up to 2^64.
   */
  lemma ReleasedPods(app: App, desired: Template, existing: Sts, r: Reads, f: Findings, w: Write, ord: nat)
    returns (i: nat, s: PodState)
    requires f.sample == SampleOfFleet(CelldPolicy(), app.fleet, existing.spec.replicas, r.listing, r.answers)
    requires Permits(app, desired, existing, f, w) && w.kind == Release && ord < existing.spec.replicas
    ensures r.listing.Some? && i < |r.listing.value| == |r.answers|
    ensures Answers(r.listing.value[i], r.answers[i], PodName(app.fleet, ord), s)
    ensures Sum(Counters(Polls(r.listing.value, r.answers))) < TWO_64 ==> s.restoring == 0
  {
    i, s := SettledPod(app, existing, r, f, ord);
  }

  /** A completed pass saw at least one pod, so an empty resolved version is never reported rolled out. */
  lemma EmptyVersionNeverRolledOut(app: App, desired: Template, existing: Sts, r: Reads, f: Findings)
    requires f.sample == SampleOfFleet(CelldPolicy(), app.fleet, existing.spec.replicas, r.listing, r.answers)
    ensures !Completes(Decide(app, desired, "", existing, f))
  {
    if Completes(Decide(app, desired, "", existing, f)) {
      RolledOutIff(app, desired, "", existing, f);
      var i, s := RolledOutPods(app, desired, "", existing, r, f, 0);
    }
  }

  // ----- what the pass's report turns into -----

  /** updateStatus: the version shown as rolled out. */
  function RolledOutAppVersion(outcome: Outcome, appVersion: string): string {
    if outcome.rolledOut then appVersion else ""
  }

  /** ensureScaledObject: the scaler is left running only behind a Ready pass. */
  predicate ScalerPaused(outcome: Outcome) { outcome.phase != Ready }

  /**
    A pass that writes nothing, or gets its write through, resumes the scaler if and only if it completes the
    rollout.
   */
  lemma ReportedIff(app: App, desired: Template, appVersion: string, existing: Sts, f: Findings)
    ensures var d := Decide(app, desired, appVersion, existing, f);
            d.outcome.Ok? ==>
              && (!ScalerPaused(d.outcome.value) <==> Completes(d))
              && RolledOutAppVersion(d.outcome.value, appVersion) == if Completes(d) then appVersion else ""
  {
  }
}

/** The reconcile pass as it runs: its loops, its in-place edits, and its compare-and-swap writes. */
module Reconciler {
  import opened Prelude
  import opened Compatibility
  import opened Census
  import opened Rollout
  import opened Scaler

  datatype UpdateResult = Updated(latest: Sts) | Conflict | Failed

  /** What can go wrong with a request besides a conflict: it is turned down, or its answer gets lost. */
  datatype Fault = NoFault | Rejected | AnswerLost

  /** The API server's copy of the StatefulSet. */
  class FleetApi {
    var stored: Sts
    var version: nat

    constructor (stored: Sts)
      ensures this.stored == stored && this.version == 0
    {
      this.stored, this.version := stored, 0;
    }

    /**
      updateFleet: a request that is not turned down is stored if and only if nobody has written since the copy
      was read; when its answer gets lost the caller sees a failure either way.
     */
    method Update(written: Sts, readAt: nat, fault: Fault) returns (result: UpdateResult)
      modifies this
      ensures if fault == Rejected || readAt != old(version)
              then stored == old(stored) && version == old(version)
              else stored == Stored(old(stored), written) && version == old(version) + 1
      ensures result == if fault != NoFault then Failed else if readAt != old(version) then Conflict
                else Updated(stored)
    {
      if fault == Rejected {
        return Failed;
      }
      if readAt != version {
        return if fault == AnswerLost then Failed else Conflict;
      }
      stored := Stored(stored, written);
      version := version + 1;
      return if fault == AnswerLost then Failed else Updated(stored);
    }
  }

  /** What a pass that attempted this decision leaves behind and reports. */
  ghost predicate CarriedOut(
    d: Decision, app: App, readAt: nat, fault: Fault,
    before: Sts, versionBefore: nat, after: Sts, versionAfter: nat, out: Result<Outcome>)
  {
    if d.write.None? then after == before && versionAfter == versionBefore && out == d.outcome
    else
      var stores := fault != Rejected && readAt == versionBefore;
      && after == (if stores then Stored(before, d.write.value.sts) else before)
      && versionAfter == (if stores then versionBefore + 1 else versionBefore)
      && out == if fault != NoFault then Err else if stores then d.outcome else Ok(ConflictOutcome(app))
  }

  /** The API object at write time agrees with the copy the pass read, unless it has moved on. */
  ghost predicate Fresh(api: FleetApi, existing: Sts, readAt: nat)
    reads api
  {
    && readAt <= api.version && (readAt == api.version ==> api.stored == existing)
    && existing.status.observedGeneration <= existing.generation
  }

  /** The sweep of a listing gets one answer for each pod, in some completion order. */
  predicate Answered(r: Reads, order: seq<nat>) {
    r.listing.Some? ==> |r.answers| == |r.listing.value| && CompletionOrder(order, |r.listing.value|)
  }

  method Attempt(
    api: FleetApi, w: Write, app: App, readAt: nat, fault: Fault, done: Outcome)
    returns (out: Result<Outcome>)
    requires readAt <= api.version
    modifies api
    ensures CarriedOut(Decision(Some(w), Ok(done)), app, readAt, fault,
                       old(api.stored), old(api.version), api.stored, api.version, out)
  {
    var result := api.Update(w.sts, readAt, fault);
    match result
    case Failed => out := Err;
    case Conflict => out := Ok(ConflictOutcome(app));
    case Updated(_) => out := Ok(done);
  }

  // ----- reading -----

  /** Gate 1's loop over the released ordinals: each must be found updated, and the first that is not decides. */
  method CheckGate(sts: Sts, gate: map<nat, GateRead>) returns (verdict: GateVerdict)
    ensures verdict == GateOf(sts, gate)
  {
    if sts.status.updateRevision.None? {
      return Wait;
    }
    var revision, lo, hi := sts.status.updateRevision.value, sts.spec.partition, sts.spec.replicas;
    var ord := lo;
    while ord < hi
      invariant lo <= ord
      invariant AllUpdated(gate, revision, lo, ord)
    {
      var read := GateReadOf(gate, ord);
      if read.ReadFailed? {
        assert !Rollout.Updated(read, revision);
        return Fail;
      }
      if read.NotFound? || read.pod.template != revision || !PodReady(read.pod) {
        assert !Rollout.Updated(read, revision);
        return Wait;
      }
      ord := ord + 1;
    }
    return Passed;
  }

  /** liveFleetBreakingReason: the two templates first, then every owned pod. */
  method CheckLiveFleet(policy: Policy, existing: Template, desired: Template, census: Option<seq<PodItem>>)
    returns (hazard: Result<bool>)
    ensures hazard == LiveHazard(policy, existing, desired, census)
  {
    if !policy.compatible(existing, desired) {
      return Ok(true);
    }
    if census.None? {
      return Err;
    }
    var pods := census.value;
    for i := 0 to |pods|
      invariant forall k :: 0 <= k < i && pods[k].owned ==> policy.compatible(pods[k].template, desired)
    {
      if pods[i].owned && !policy.compatible(pods[i].template, desired) {
        return Ok(true);
      }
    }
    return Ok(false);
  }

  /** observeFleet on what the listing returned; a failed list is an observation that failed. */
  method SampleFleet(app: App, existing: Sts, r: Reads, order: seq<nat>) returns (sample: Option<Sample>)
    requires Answered(r, order)
    ensures sample == SampleOfFleet(CelldPolicy(), app.fleet, existing.spec.replicas, r.listing, r.answers)
  {
    if r.listing.None? {
      return None;
    }
    sample := CountFleet(r.listing.value, r.answers, order, app.fleet, existing.spec.replicas);
  }

  /** These are the findings of these reads, as far as the rollout and steady steps use them. */
  ghost predicate Digests(f: Findings, app: App, existing: Sts, r: Reads) {
    && f.gate == GateOf(existing, r.gate)
    && f.sample == SampleOfFleet(CelldPolicy(), app.fleet, existing.spec.replicas, r.listing, r.answers)
    && f.listed == (if r.listing.Some? then Some(|r.listing.value|) else None)
    && f.checkedAt == r.checkedAt && f.stampedAt == r.stampedAt
  }

  // ----- acting -----

  /** The two gates of rolloutStep, the second asked only when the first has passed. */
  method PassGates(app: App, sts: Sts, r: Reads, order: seq<nat>, ghost f: Findings) returns (pass: Result<bool>)
    requires Answered(r, order) && Digests(f, app, sts, r)
    ensures pass == if f.gate == Fail then Err else Ok(f.gate == Passed && FleetSettled(f))
  {
    var gate := CheckGate(sts, r.gate);
    if gate != Passed {
      return if gate == Fail then Err else Ok(false);
    }
    var sample := SampleFleet(app, sts, r, order);
    return Ok(sample.Some? && sample.value.restoring == 0);
  }

  /** The end of rolloutStep: one ordinal further, and a new settle deadline. */
  method Advance(api: FleetApi, app: App, existing: Sts, readAt: nat, stampedAt: int, fault: Fault)
    returns (out: Result<Outcome>)
    requires readAt <= api.version && existing.spec.partition > 0
    modifies api
    ensures CarriedOut(Writing(Release, ReleaseNext(existing, stampedAt), RollingOut, existing.spec.partition - 1),
                       app, readAt, fault, old(api.stored), old(api.version), api.stored, api.version, out)
  {
    var sts, partition := existing, existing.spec.partition;
    partition := partition - 1;
    sts := sts.(settleUntil := Some(stampedAt + SETTLE));
    sts := sts.(spec := sts.spec.(partition := partition));
    out := Attempt(api, Write(Release, sts), app, readAt, fault, Outcome(RollingOut, partition, 10 * SECOND, false));
  }

  /** The verdict of the gates decides: an error, a wait, or the release. */
  method FollowGates(
    api: FleetApi, app: App, sts: Sts, readAt: nat, stampedAt: int, pass: Result<bool>, fault: Fault, ghost f: Findings)
    returns (out: Result<Outcome>)
    requires readAt <= api.version && 0 < sts.spec.partition <= sts.spec.replicas
    requires sts.status.observedGeneration == sts.generation && sts.status.updateRevision.Some? && !Settling(sts, f)
    requires pass == if f.gate == Fail then Err else Ok(f.gate == Passed && FleetSettled(f))
    requires f.stampedAt == stampedAt
    modifies api
    ensures CarriedOut(RolloutStep(sts, f), app, readAt, fault,
                       old(api.stored), old(api.version), api.stored, api.version, out)
  {
    if pass.Err? {
      return Err;
    }
    if !pass.value {
      return Ok(Outcome(RollingOut, sts.spec.partition, 10 * SECOND, false));
    }
    out := Advance(api, app, sts, readAt, stampedAt, fault);
  }

  method AskGates(
    api: FleetApi, app: App, sts: Sts, readAt: nat, r: Reads, order: seq<nat>, fault: Fault, ghost f: Findings)
    returns (out: Result<Outcome>)
    requires readAt <= api.version && 0 < sts.spec.partition <= sts.spec.replicas
    requires sts.status.observedGeneration == sts.generation && sts.status.updateRevision.Some? && !Settling(sts, f)
    requires Answered(r, order) && Digests(f, app, sts, r)
    modifies api
    ensures CarriedOut(RolloutStep(sts, f), app, readAt, fault,
                       old(api.stored), old(api.version), api.stored, api.version, out)
  {
    var pass := PassGates(app, sts, r, order, f);
    out := FollowGates(api, app, sts, readAt, r.stampedAt, pass, fault, f);
  }

  /** rolloutStep from the settle deadline on. */
  method AwaitGates(
    api: FleetApi, app: App, sts: Sts, readAt: nat, r: Reads, order: seq<nat>, fault: Fault, ghost f: Findings)
    returns (out: Result<Outcome>)
    requires Fresh(api, sts, readAt) && 0 < sts.spec.partition <= sts.spec.replicas
    requires sts.status.observedGeneration == sts.generation && Answered(r, order) && Digests(f, app, sts, r)
    modifies api
    ensures CarriedOut(RolloutStep(sts, f), app, readAt, fault,
                       old(api.stored), old(api.version), api.stored, api.version, out)
  {
    var waiting := Outcome(RollingOut, sts.spec.partition, 10 * SECOND, false);
    if sts.settleUntil.Some? && r.checkedAt < sts.settleUntil.value {
      return Ok(waiting.(requeue := sts.settleUntil.value - r.checkedAt));
    }
    if sts.status.updateRevision.None? {
      return Ok(waiting);
    }
    out := AskGates(api, app, sts, readAt, r, order, fault, f);
  }

  /** rolloutStep: one ordinal at most, and a pass that clamps the partition never also releases. */
  method StepRollout(
    api: FleetApi, app: App, existing: Sts, readAt: nat, r: Reads, order: seq<nat>, fault: Fault, ghost f: Findings)
    returns (out: Result<Outcome>)
    requires Fresh(api, existing, readAt) && existing.spec.partition > 0
    requires Answered(r, order) && Digests(f, app, existing, r)
    modifies api
    ensures CarriedOut(RolloutStep(existing, f), app, readAt, fault,
                       old(api.stored), old(api.version), api.stored, api.version, out)
  {
    var sts := existing;
    var partition, replicas := sts.spec.partition, sts.spec.replicas;
    if partition > replicas {
      partition := replicas;
      sts := sts.(spec := sts.spec.(partition := partition));
      var result := api.Update(sts, readAt, fault);
      if result.Failed? {
        return Err;
      }
      if result.Conflict? {
        return Ok(ConflictOutcome(app));
      }
      sts := result.latest;
    }
    var waiting := Outcome(RollingOut, partition, 10 * SECOND, false);
    if partition == 0 || sts.status.observedGeneration != sts.generation {
      return Ok(waiting);
    }
    out := AwaitGates(api, app, sts, readAt, r, order, fault, f);
  }

  /** recreateStep. */
  method StepRecreate(
    api: FleetApi, app: App, existing: Sts, desired: Template, readAt: nat, r: Reads, fault: Fault, ghost f: Findings)
    returns (out: Result<Outcome>)
    requires Fresh(api, existing, readAt) && Digests(f, app, existing, r)
    modifies api
    ensures CarriedOut(RecreateStep(app, existing, desired, f), app, readAt, fault,
                       old(api.stored), old(api.version), api.stored, api.version, out)
  {
    var sts := existing;
    var done := Outcome(Recreating, 0, 10 * SECOND, false);
    if sts.spec.replicas != 0 {
      sts := sts.(spec := sts.spec.(replicas := 0));
      sts := sts.(recreating := true);
      out := Attempt(api, Write(Drain, sts), app, readAt, fault, done);
      return;
    }
    if r.listing.None? {
      return Err;
    }
    if sts.status.observedGeneration != sts.generation || |r.listing.value| > 0 || sts.status.replicas > 0 {
      return Ok(done);
    }
    sts := sts.(spec := sts.spec.(template := desired));
    sts := sts.(hash := Some(Fingerprint(desired)));
    sts := sts.(recreating := false);
    sts := sts.(spec := sts.spec.(replicas := DesiredReplicas(app)));
    sts := sts.(spec := sts.spec.(partition := 0));
    out := Attempt(api, Write(Restart, sts), app, readAt, fault, done);
  }

  predicate Converged(s: PodState, appVersion: string) {
    var d := s.deployment;
    d.Some? && d.value.version == appVersion && d.value.draining == 0 && d.value.swapping == 0
  }

  /** The loop of steadyFleet over the swept states, in any order. */
  method CheckServing(states: map<string, PodState>, appVersion: string) returns (serving: bool)
    ensures serving == Serving(states, appVersion)
  {
    var rest := states.Keys;
    while rest != {}
      invariant rest <= states.Keys
      invariant forall name :: name in states && name !in rest ==> Converged(states[name], appVersion)
      decreases rest
    {
      var name :| name in rest;
      var d := states[name].deployment;
      if d.None? || d.value.version != appVersion || d.value.draining > 0 || d.value.swapping != 0 {
        return false;
      }
      rest := rest - {name};
    }
    return true;
  }

  /** steadyFleet. */
  method StepSteady(
    api: FleetApi, app: App, existing: Sts, appVersion: string, readAt: nat, r: Reads, order: seq<nat>, fault: Fault,
    ghost f: Findings)
    returns (out: Result<Outcome>)
    requires Fresh(api, existing, readAt) && Answered(r, order) && Digests(f, app, existing, r)
    modifies api
    ensures CarriedOut(SteadyFleet(app, existing, appVersion, f), app, readAt, fault,
                       old(api.stored), old(api.version), api.stored, api.version, out)
  {
    var sts := existing;
    if !app.autoscaling && sts.spec.replicas != DesiredReplicas(app) {
      sts := sts.(spec := sts.spec.(replicas := DesiredReplicas(app)));
      out := Attempt(api, Write(Rescale, sts), app, readAt, fault, Outcome(Pending, 0, 10 * SECOND, false));
      return;
    }
    var pending := Outcome(Pending, 0, 15 * SECOND, false);
    var live := sts.spec.replicas;
    if !(sts.status.readyReplicas == live && sts.status.updatedReplicas == live
         && sts.status.observedGeneration == sts.generation) {
      return Ok(pending);
    }
    var sample := SampleFleet(app, sts, r, order);
    if sample.None? || sample.value.restoring != 0 {
      return Ok(pending);
    }
    var serving := CheckServing(sample.value.states, appVersion);
    if !serving {
      return Ok(pending);
    }
    return Ok(Outcome(Ready, 0, 30 * SECOND, true));
  }

  /** The template-change branch of reconcileFleet. */
  method StepTemplateChange(
    api: FleetApi, app: App, existing: Sts, desired: Template, readAt: nat, r: Reads, fault: Fault, ghost f: Findings)
    returns (out: Result<Outcome>)
    requires Fresh(api, existing, readAt) && Digests(f, app, existing, r)
    requires f.hazard == LiveHazard(CelldPolicy(), existing.spec.template, desired, r.census)
    modifies api
    ensures CarriedOut(ChangeTemplate(app, existing, desired, f), app, readAt, fault,
                       old(api.stored), old(api.version), api.stored, api.version, out)
  {
    var hazard := CheckLiveFleet(CelldPolicy(), existing.spec.template, desired, r.census);
    if hazard.Err? {
      return Err;
    }
    if hazard.value && app.strategy != Recreate {
      return Ok(Outcome(Degraded, 0, 0, false));
    }
    if app.strategy == Recreate {
      out := StepRecreate(api, app, existing, desired, readAt, r, fault, f);
      return;
    }
    var sts := existing;
    var live := sts.spec.replicas;
    sts := sts.(spec := sts.spec.(template := desired));
    sts := sts.(hash := Some(Fingerprint(desired)));
    sts := sts.(settleUntil := Some(r.stampedAt + SETTLE));
    sts := sts.(spec := sts.spec.(partition := live));
    out := Attempt(api, Write(Freeze, sts), app, readAt, fault, Outcome(RollingOut, live, 10 * SECOND, false));
  }

  /** The branches of reconcileFleet after the scaler. Each reads only what it needs. */
  method Act(
    api: FleetApi, app: App, desired: Template, appVersion: string, existing: Sts, readAt: nat,
    r: Reads, order: seq<nat>, fault: Fault, ghost f: Findings)
    returns (out: Result<Outcome>)
    requires Fresh(api, existing, readAt) && Answered(r, order) && Digests(f, app, existing, r)
    requires f.hazard == LiveHazard(CelldPolicy(), existing.spec.template, desired, r.census)
    requires f.refused ==
             (RuntimeChangeRefusal(existing.spec.template.image, app.image, app.strategy == Recreate) != Allowed)
    requires existing.controlled && (MustPause(app, existing, desired) ==> f.paused == Ok(true))
    modifies api
    ensures CarriedOut(Decide(app, desired, appVersion, existing, f), app, readAt, fault,
                       old(api.stored), old(api.version), api.stored, api.version, out)
  {
    var refusal := RuntimeChangeRefusal(existing.spec.template.image, app.image, app.strategy == Recreate);
    if refusal != Allowed {
      return Ok(Outcome(Degraded, 0, 60 * SECOND, false));
    }
    if existing.recreating {
      out := StepRecreate(api, app, existing, desired, readAt, r, fault, f);
    } else if TemplateChanged(existing, desired) {
      out := StepTemplateChange(api, app, existing, desired, readAt, r, fault, f);
    } else if existing.spec.partition > 0 {
      out := StepRollout(api, app, existing, readAt, r, order, fault, f);
    } else {
      out := StepSteady(api, app, existing, appVersion, readAt, r, order, fault, f);
    }
  }

  method ActOnReads(
    api: FleetApi, app: App, desired: Template, appVersion: string, existing: Sts, readAt: nat,
    r: Reads, order: seq<nat>, fault: Fault)
    returns (out: Result<Outcome>)
    requires Fresh(api, existing, readAt) && Answered(r, order)
    requires existing.controlled && (MustPause(app, existing, desired) ==> r.paused == Ok(true))
    modifies api
    ensures CarriedOut(Decide(app, desired, appVersion, existing, FindingsOf(CelldPolicy(), app, desired, existing, r)),
                       app, readAt, fault, old(api.stored), old(api.version), api.stored, api.version, out)
  {
    ghost var f := FindingsOf(CelldPolicy(), app, desired, existing, r);
    out := Act(api, app, desired, appVersion, existing, readAt, r, order, fault, f);
  }

  /** The pass up to its report: the scaler first, if anything may be written, then the branches. */
  method PauseAndAct(
    api: FleetApi, scaler: ScalerApi, app: App, desired: Template, appVersion: string,
    existing: Sts, readAt: nat, r: Reads, order: seq<nat>, faults: ScalerFaults, fault: Fault)
    returns (out: Result<Outcome>, ghost paused: Result<bool>)
    requires Fresh(api, existing, readAt) && Answered(r, order)
    modifies api, scaler`scaled
    ensures CarriedOut(
              Decide(app, desired, appVersion, existing,
                     FindingsOf(CelldPolicy(), app, desired, existing, r.(paused := paused))),
              app, readAt, fault, old(api.stored), old(api.version), api.stored, api.version, out)
    ensures api.version != old(api.version) ==>
              && Quiet(scaler.kedaInstalled, old(scaler.scaled), scaler.hpas, app.fleet, app.autoscaling)
              && scaler.scaled == old(scaler.scaled)
  {
    paused := Ok(false);
    if !existing.controlled {
      return Err, paused;
    }
    var verdict := Ok(false);
    if MustPause(app, existing, desired) {
      verdict := scaler.PauseScaling(app.fleet, app.autoscaling, faults);
      paused := verdict;
      if verdict.Err? {
        return Err, paused;
      }
      if !verdict.value {
        return Ok(Outcome(RollingOut, 0, 5 * SECOND, false)), paused;
      }
    }
    out := ActOnReads(api, app, desired, appVersion, existing, readAt, r.(paused := verdict), order, fault);
  }

  /**
    A pass reports the version rolled out if and only if it found it so, and then it has written nothing: not when it
    is still writing, and not when its write lost the race or failed, whatever phase was stored before.
   */
  lemma ReportsRolledOutIff(
    app: App, desired: Template, appVersion: string, existing: Sts, f: Findings, readAt: nat, fault: Fault,
    before: Sts, versionBefore: nat, after: Sts, versionAfter: nat, out: Result<Outcome>)
    requires CarriedOut(Decide(app, desired, appVersion, existing, f), app, readAt, fault,
                        before, versionBefore, after, versionAfter, out)
    ensures out.Ok? && out.value.rolledOut <==> RolledOut(app, desired, appVersion, existing, f)
    ensures out.Ok? && RolledOutAppVersion(out.value, appVersion) != "" ==>
              RolledOut(app, desired, appVersion, existing, f)
    ensures out.Ok? && out.value.rolledOut ==> after == before && versionAfter == versionBefore
  {
    RolledOutIff(app, desired, appVersion, existing, f);
  }

  /**
    reconcileFleet for an existing StatefulSet. The pass leaves the object exactly as its decision
    says, or untouched when the write lost the race; the decision's scaler verdict is the one
    pauseScaling gave in this pass; an object that was written was written with the scaler quiet; and
    whatever becomes of its write, the pass reports the version rolled out exactly when it is.
   */
  method ReconcileFleet(
    api: FleetApi, scaler: ScalerApi, app: App, desired: Template, appVersion: string,
    existing: Sts, readAt: nat, r: Reads, order: seq<nat>, faults: ScalerFaults, fault: Fault)
    returns (out: Result<Outcome>, ghost paused: Result<bool>)
    requires Fresh(api, existing, readAt) && Answered(r, order)
    modifies api, scaler`scaled
    ensures CarriedOut(
              Decide(app, desired, appVersion, existing,
                     FindingsOf(CelldPolicy(), app, desired, existing, r.(paused := paused))),
              app, readAt, fault, old(api.stored), old(api.version), api.stored, api.version, out)
    ensures api.version != old(api.version) ==>
              && Quiet(scaler.kedaInstalled, old(scaler.scaled), scaler.hpas, app.fleet, app.autoscaling)
              && scaler.scaled == old(scaler.scaled)
    ensures out.Ok? && out.value.rolledOut <==>
            RolledOut(app, desired, appVersion, existing,
                      FindingsOf(CelldPolicy(), app, desired, existing, r.(paused := paused)))
    ensures out.Ok? && out.value.rolledOut ==> api.stored == old(api.stored) && api.version == old(api.version)
  {
    out, paused :=
      PauseAndAct(api, scaler, app, desired, appVersion, existing, readAt, r, order, faults, fault);
    ReportsRolledOutIff(app, desired, appVersion, existing,
                        FindingsOf(CelldPolicy(), app, desired, existing, r.(paused := paused)), readAt, fault,
                        old(api.stored), old(api.version), api.stored, api.version, out);
  }

  /** A pass that lost the race shows what was stored before, nothing rolled out, and is run again soon. */
  lemma LostRaceReports(
    app: App, desired: Template, appVersion: string, existing: Sts, f: Findings, readAt: nat,
    before: Sts, versionBefore: nat, after: Sts, versionAfter: nat, out: Result<Outcome>, w: Write)
    requires CarriedOut(Decide(app, desired, appVersion, existing, f), app, readAt, NoFault,
                        before, versionBefore, after, versionAfter, out)
    requires Permits(app, desired, existing, f, w) && readAt != versionBefore
    ensures after == before && versionAfter == versionBefore
    ensures out == Ok(Outcome(if app.phase.Some? then app.phase.value else Pending, 0, 3 * SECOND, false))
  {
    WritesIffPermitted(app, desired, appVersion, existing, f, w);
  }

  /**
    When a pass leaves the scaler running although a template, release, recreate or scale write is still
    outstanding: exactly when it attempted that write, lost the race, and the stored phase was Ready.
   */
  lemma ResumesOutstandingIff(
    app: App, desired: Template, appVersion: string, existing: Sts, f: Findings, readAt: nat, fault: Fault,
    before: Sts, versionBefore: nat, after: Sts, versionAfter: nat, out: Result<Outcome>)
    requires CarriedOut(Decide(app, desired, appVersion, existing, f), app, readAt, fault,
                        before, versionBefore, after, versionAfter, out)
    requires MustPause(app, existing, desired)
    ensures out.Ok? && !ScalerPaused(out.value) <==>
            && (exists w :: Permits(app, desired, existing, f, w))
            && fault == NoFault && readAt != versionBefore && app.phase == Some(Ready)
  {
    var d := Decide(app, desired, appVersion, existing, f);
    if d.write.Some? {
      WritesIffPermitted(app, desired, appVersion, existing, f, d.write.value);
    } else {
      forall w | Permits(app, desired, existing, f, w) ensures false {
        WritesIffPermitted(app, desired, appVersion, existing, f, w);
      }
    }
    ReportedIff(app, desired, appVersion, existing, f);
    RolledOutIff(app, desired, appVersion, existing, f);
  }
}

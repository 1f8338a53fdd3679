/**
  Convergence of a rolling update, from the operator's own reads: from every fleet that may be rolled to a template,
  whatever is left of an earlier rollout, there is a history of passes that makes the planned writes, one
  template write and one release for each ordinal among them, and ends with Ready.
 */
module RollsToReady {
  import opened Prelude
  import opened Compatibility
  import opened Census
  import opened Rollout
  import opened Convergence
  import opened BreakingRecreate
  import Protocol
  import Reach

  /** The operator owns the object, is not recreating it, and may roll it to the template; some pods are wanted. */
  predicate Rollable(app: App, desired: Template, sts: Sts) {
    && sts.controlled && !sts.recreating && app.strategy == Rolling && desired.image == app.image
    && sts.hash == Some(Fingerprint(sts.spec.template)) && Compatible(sts.spec.template, desired)
    && RuntimeChangeRefusal(sts.spec.template.image, app.image, false) == Allowed
    && FinalReplicas(app, desired, sts) > 0
  }

  /** The controller has done what the object asks, or is about to be asked for something else. */
  predicate CaughtUp(desired: Template, sts: Sts) { sts == Done(sts) || TemplateChanged(sts, desired) }

  /** What a pass finds of a fleet that is all there, updated as far as it is released, idle and serving. */
  predicate Fine(sts: Sts, f: Findings, appVersion: string) {
    && f.paused == Ok(true) && !f.refused && f.hazard == Ok(false) && !Settling(sts, f)
    && (sts == Done(sts) ==> f.gate == Passed)
    && if sts.spec.replicas == 0 then f.sample.None? else FleetSettled(f) && Serving(f.sample.value.states, appVersion)
  }

  lemma FineCooperates(app: App, desired: Template, appVersion: string, sts: Sts, f: Findings)
    requires Rollable(app, desired, sts) && CaughtUp(desired, sts) && Fine(sts, f, appVersion)
    ensures Cooperates(app, desired, appVersion, Round(sts, f, true))
  {
  }

  /** The first n pods of a fleet partway through a rollout: those from the partition up are updated. */
  function Midway(was: Template, now: Template, partition: nat, n: nat): (pods: map<nat, Protocol.Pod>)
    ensures Reach.Healthy(pods, n)
    ensures forall ord :: ord in pods ==> pods[ord].rev.template == if ord < partition then was else now
  {
    if n == 0 then map[]
    else
      var template := if n - 1 < partition then was else now;
      Midway(was, now, partition, n - 1)[n - 1 := Reach.Up(Protocol.Revision(template, 0), 0)]
  }

  function Pods(was: Template, sts: Sts): (pods: map<nat, Protocol.Pod>)
    ensures Reach.Healthy(pods, sts.spec.replicas)
  {
    Midway(was, sts.spec.template, sts.spec.partition, sts.spec.replicas)
  }

  function Entries(fleet: string, was: Template, sts: Sts): (items: seq<PodItem>)
    ensures |items| == sts.spec.replicas
  {
    Reach.Listing(fleet, Pods(was, sts), sts.spec.replicas)
  }

  lemma EntryShows(fleet: string, was: Template, sts: Sts, ord: nat)
    requires ord < sts.spec.replicas
    ensures var item := Entries(fleet, was, sts)[ord];
            PodReady(item) && item.template == if ord < sts.spec.partition then was else sts.spec.template
  {
    assert Protocol.Shows(Entries(fleet, was, sts)[ord], fleet, ord, Pods(was, sts)[ord]);
  }

  /** Each pod read by its own name. */
  function GateReads(items: seq<PodItem>): map<nat, GateRead> {
    map ord: nat | ord < |items| :: ord := Found(items[ord])
  }

  /** A pass that reads that fleet, with the scaler quiet and the settle deadline over. */
  predicate Sees(fleet: string, was: Template, sts: Sts, read: Reads) {
    && read.census == read.listing == Some(Entries(fleet, was, sts))
    && read.gate == GateReads(Entries(fleet, was, sts))
    && read.paused == Ok(true) && (sts.settleUntil.Some? ==> read.checkedAt >= sts.settleUntil.value)
  }

  lemma GatePasses(fleet: string, was: Template, sts: Sts)
    requires sts == Done(sts)
    ensures GateOf(sts, GateReads(Entries(fleet, was, sts))) == Passed
  {
    forall ord: nat | sts.spec.partition <= ord < sts.spec.replicas
      ensures Updated(GateReadOf(GateReads(Entries(fleet, was, sts)), ord), sts.spec.template)
    {
      EntryShows(fleet, was, sts, ord);
    }
  }

  lemma NothingBreaks(fleet: string, was: Template, sts: Sts, desired: Template)
    requires Compatible(was, desired) && Compatible(sts.spec.template, desired)
    ensures LiveHazard(CelldPolicy(), sts.spec.template, desired, Some(Entries(fleet, was, sts))) == Ok(false)
  {
    var items := Entries(fleet, was, sts);
    forall i | 0 <= i < |items| ensures Compatible(items[i].template, desired) {
      EntryShows(fleet, was, sts, i);
    }
  }

  lemma Answered(fleet: string, was: Template, sts: Sts, appVersion: string) returns (answers: seq<Response>)
    requires appVersion != ""
    ensures var sample := ObserveFleet(Entries(fleet, was, sts), answers, fleet, sts.spec.replicas);
            if sts.spec.replicas == 0 then sample.None?
            else Reach.Idle(sample) && Serving(sample.value.states, appVersion)
  {
    answers := [];
    if sts.spec.replicas > 0 {
      ServingAccepted(appVersion);
      var items;
      items, answers := AnsweringFleet(
        fleet, Pods(was, sts), sts.spec.replicas, ServingAnswer(appVersion), ServingState(appVersion));
    }
  }

  /** The pass that reads it cooperates. */
  lemma Reading(app: App, desired: Template, appVersion: string, was: Template, sts: Sts) returns (read: Reads)
    requires Rollable(app, desired, sts) && Compatible(was, desired) && CaughtUp(desired, sts) && appVersion != ""
    ensures Sees(app.fleet, was, sts, read)
    ensures Cooperates(app, desired, appVersion, Pass(app, desired, sts, read))
  {
    var items := Entries(app.fleet, was, sts);
    var answers := Answered(app.fleet, was, sts, appVersion);
    var now := if sts.settleUntil.Some? then sts.settleUntil.value else 0;
    read := Reads(Ok(true), Some(items), GateReads(items), Some(items), answers, now, now);
    if sts == Done(sts) {
      GatePasses(app.fleet, was, sts);
    }
    NothingBreaks(app.fleet, was, sts, desired);
    FineCooperates(app, desired, appVersion, sts, FindingsOf(CelldPolicy(), app, desired, sts, read));
  }

  lemma WriteStaysRollable(app: App, desired: Template, existing: Sts, f: Findings, w: Write)
    requires Rollable(app, desired, existing) && Permits(app, desired, existing, f, w)
    ensures Rollable(app, desired, Done(Stored(existing, w.sts)))
  {
    WriteFollowsPlan(app, desired, existing, f, w);
    SameRuntimeCompatible(desired, desired);
    SameImageAllowed(app.image, false);
  }

  /** What a pass writes leaves the fleet one that may be rolled to the template. */
  lemma StaysRollable(app: App, desired: Template, appVersion: string, r: Round)
    requires Rollable(app, desired, r.existing)
    ensures Rollable(app, desired, Done(After(app, desired, appVersion, r)))
  {
    if Lands(app, desired, appVersion, r) {
      var w := Decided(app, desired, appVersion, r).write.value;
      WritesIffPermitted(app, desired, appVersion, r.existing, r.f, w);
      WriteStaysRollable(app, desired, r.existing, r.f, w);
    }
  }

  /** The pass that makes this read, of a fleet updated as far as it is released. */
  predicate Observes(app: App, desired: Template, was: Template, r: Round, read: Reads) {
    r == Pass(app, desired, r.existing, read) && Sees(app.fleet, was, r.existing, read)
  }

  predicate AllObserve(app: App, desired: Template, was: Template, rounds: seq<Round>, listings: seq<Reads>) {
    && |rounds| == |listings|
    && forall i :: 0 <= i < |rounds| ==> Observes(app, desired, was, rounds[i], listings[i])
  }

  predicate AllCooperate(app: App, desired: Template, appVersion: string, rounds: seq<Round>) {
    forall i :: 0 <= i < |rounds| ==> Cooperates(app, desired, appVersion, rounds[i])
  }

  lemma HistoryGoesOn(app: App, desired: Template, appVersion: string, rounds: seq<Round>, r: Round)
    requires History(app, desired, appVersion, rounds) && |rounds| > 0
    requires r.existing == Done(After(app, desired, appVersion, rounds[|rounds| - 1]))
    ensures History(app, desired, appVersion, rounds + [r])
  {
    var longer := rounds + [r];
    forall i | 0 < i < |longer|
      ensures longer[i].existing
           == After(app, desired, appVersion, longer[i - 1]).(status := longer[i].existing.status)
    {
      assert longer[i - 1] == rounds[i - 1];
    }
  }

  lemma OneMoreObserves(
    app: App, desired: Template, was: Template, rounds: seq<Round>, listings: seq<Reads>, r: Round, read: Reads)
    requires AllObserve(app, desired, was, rounds, listings) && Observes(app, desired, was, r, read)
    ensures AllObserve(app, desired, was, rounds + [r], listings + [read])
  {
  }

  lemma OneMoreCooperates(app: App, desired: Template, appVersion: string, rounds: seq<Round>, r: Round)
    requires AllCooperate(app, desired, appVersion, rounds) && Cooperates(app, desired, appVersion, r)
    ensures AllCooperate(app, desired, appVersion, rounds + [r])
  {
  }

  /** After any pass over such a fleet, another one cooperates once the controller has done its part. */
  lemma OneMore(app: App, desired: Template, appVersion: string, was: Template, last: Round)
    returns (r: Round, read: Reads)
    requires Rollable(app, desired, last.existing) && Compatible(was, desired) && appVersion != ""
    ensures r.existing == Done(After(app, desired, appVersion, last)) && Rollable(app, desired, r.existing)
    ensures Observes(app, desired, was, r, read) && Cooperates(app, desired, appVersion, r)
  {
    StaysRollable(app, desired, appVersion, last);
    var next := Done(After(app, desired, appVersion, last));
    read := Reading(app, desired, appVersion, was, next);
    r := Pass(app, desired, next, read);
  }

  lemma FirstCooperates(app: App, desired: Template, appVersion: string, was: Template, existing: Sts)
    returns (rounds: seq<Round>, listings: seq<Reads>)
    requires Rollable(app, desired, existing) && Compatible(was, desired) && CaughtUp(desired, existing)
    requires appVersion != ""
    ensures |rounds| == 1 && rounds[0].existing == existing
    ensures History(app, desired, appVersion, rounds) && AllObserve(app, desired, was, rounds, listings)
    ensures AllCooperate(app, desired, appVersion, rounds)
  {
    var read := Reading(app, desired, appVersion, was, existing);
    rounds, listings := [Pass(app, desired, existing, read)], [read];
  }

  lemma NextCooperates(
    app: App, desired: Template, appVersion: string, was: Template, rounds: seq<Round>, listings: seq<Reads>)
    returns (r: Round, read: Reads)
    requires rounds != [] && Rollable(app, desired, rounds[|rounds| - 1].existing) && Compatible(was, desired)
    requires History(app, desired, appVersion, rounds) && AllObserve(app, desired, was, rounds, listings)
    requires AllCooperate(app, desired, appVersion, rounds) && appVersion != ""
    ensures Rollable(app, desired, r.existing) && History(app, desired, appVersion, rounds + [r])
    ensures AllObserve(app, desired, was, rounds + [r], listings + [read])
    ensures AllCooperate(app, desired, appVersion, rounds + [r])
  {
    r, read := OneMore(app, desired, appVersion, was, rounds[|rounds| - 1]);
    HistoryGoesOn(app, desired, appVersion, rounds, r);
    OneMoreObserves(app, desired, was, rounds, listings, r, read);
    OneMoreCooperates(app, desired, appVersion, rounds, r);
  }

  lemma {:induction false} Cooperating(
    app: App, desired: Template, appVersion: string, was: Template, existing: Sts, k: nat)
    returns (rounds: seq<Round>, listings: seq<Reads>)
    requires Rollable(app, desired, existing) && Compatible(was, desired) && CaughtUp(desired, existing)
    requires appVersion != ""
    ensures |rounds| == k + 1 && rounds[0].existing == existing && Rollable(app, desired, rounds[k].existing)
    ensures History(app, desired, appVersion, rounds) && AllObserve(app, desired, was, rounds, listings)
    ensures AllCooperate(app, desired, appVersion, rounds)
  {
    if k == 0 {
      rounds, listings := FirstCooperates(app, desired, appVersion, was, existing);
    } else {
      var front, seen := Cooperating(app, desired, appVersion, was, existing, k - 1);
      var r, read := NextCooperates(app, desired, appVersion, was, front, seen);
      rounds, listings := front + [r], seen + [read];
    }
  }

  lemma {:induction false} AllHelp(app: App, desired: Template, appVersion: string, rounds: seq<Round>, k: nat)
    requires k <= |rounds| && AllCooperate(app, desired, appVersion, rounds)
    ensures Helped(app, desired, appVersion, rounds, k) == k
  {
    if k == 0 {
    } else {
      AllHelp(app, desired, appVersion, rounds, k - 1);
      assert Cooperates(app, desired, appVersion, rounds[k - 1]);
    }
  }

  /**
    From any such fleet, whose pods below the partition run any template that may share it, the passes of the operator
    make the planned writes and then report Ready.
   */
  lemma ReachesReady(app: App, desired: Template, appVersion: string, was: Template, existing: Sts)
    returns (rounds: seq<Round>, listings: seq<Reads>)
    requires Rollable(app, desired, existing) && Compatible(was, desired) && CaughtUp(desired, existing)
    requires appVersion != ""
    ensures History(app, desired, appVersion, rounds) && AllObserve(app, desired, was, rounds, listings)
    ensures |rounds| == |Plan(app, desired, existing)| + 1 && rounds[0].existing == existing
    ensures Written(app, desired, appVersion, rounds, |rounds| - 1) == Plan(app, desired, existing)
    ensures ReportsReady(app, desired, appVersion, rounds[|rounds| - 1])
  {
    var k := |Plan(app, desired, existing)|;
    rounds, listings := Cooperating(app, desired, appVersion, was, existing, k);
    AllHelp(app, desired, appVersion, rounds, k);
    Converges(app, desired, appVersion, rounds, k);
  }

  lemma RollingPlan(app: App, desired: Template, existing: Sts)
    requires Rollable(app, desired, existing) && TemplateChanged(existing, desired) && !ScaleIsOurs(app, existing)
    ensures Plan(app, desired, existing) == [Freeze] + Releases(existing.spec.replicas)
  {
  }

  /** One template write, one release for each of the n pods, and Ready. */
  lemma RollsEveryPod(app: App, desired: Template, appVersion: string, existing: Sts)
    returns (rounds: seq<Round>, listings: seq<Reads>)
    requires Rollable(app, desired, existing) && appVersion != ""
    requires TemplateChanged(existing, desired) && !ScaleIsOurs(app, existing)
    ensures History(app, desired, appVersion, rounds)
    ensures AllObserve(app, desired, existing.spec.template, rounds, listings)
    ensures var n := existing.spec.replicas;
            && |rounds| == n + 2 && rounds[0].existing == existing
            && Written(app, desired, appVersion, rounds, n + 1) == [Freeze] + Releases(n)
            && ReportsReady(app, desired, appVersion, rounds[n + 1])
  {
    RollingPlan(app, desired, existing);
    rounds, listings := ReachesReady(app, desired, appVersion, existing.spec.template, existing);
  }
}

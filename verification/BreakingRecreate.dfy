/**
  Convergence on the path Recreate exists for: a change across a breaking boundary, decided on by the operator's
  own findings, from any state of the fleet to Ready.
 */
module BreakingRecreate {
  import opened Prelude
  import opened Compatibility
  import opened Census
  import opened Rollout
  import opened Convergence
  import Protocol
  import Reach

  /**
    A pass that finds a running fleet across a breaking boundary from what it is to recreate it as: it cooperates
    whatever state the fleet is in, if only the scaler is quiet and the change is not refused outright.
   */
  lemma BreakingDrainCooperates(app: App, desired: Template, appVersion: string, r: Round, read: Reads)
    requires r.f == FindingsOf(CelldPolicy(), app, desired, r.existing, read)
    requires FleetHazard(r.existing.spec.template, desired) != Safe && app.strategy == Recreate
    requires TemplateChanged(r.existing, desired) && !r.existing.recreating && r.existing.spec.replicas != 0
    ensures r.f.hazard == Ok(true)
    ensures Cooperates(app, desired, appVersion, r) <==>
            && r.landed && r.existing.controlled && read.paused == Ok(true)
            && RuntimeChangeRefusal(r.existing.spec.template.image, app.image, true) == Allowed
  {
  }

  /** It takes a drain and a restart, whatever else happens between; then nothing, and Ready. */
  lemma BreakingRecreateConverges(app: App, desired: Template, appVersion: string, rounds: seq<Round>, k: nat)
    requires History(app, desired, appVersion, rounds) && k < |rounds|
    requires Helped(app, desired, appVersion, rounds, k) >= 2
    requires FleetHazard(rounds[0].existing.spec.template, desired) != Safe && app.strategy == Recreate
    requires TemplateChanged(rounds[0].existing, desired) && rounds[0].existing.spec.replicas != 0
    ensures Written(app, desired, appVersion, rounds, k) == [Drain, Restart]
    ensures Decided(app, desired, appVersion, rounds[k]).write.None?
    ensures Cooperates(app, desired, appVersion, rounds[k]) ==>
              (ReportsReady(app, desired, appVersion, rounds[k]) <==> DesiredReplicas(app) > 0)
  {
    Converges(app, desired, appVersion, rounds, k);
  }

  // ----- and such histories exist -----

  /** What a pass reads of a fleet that lists these pods with these answers, the scaler quiet. */
  function Seeing(items: seq<PodItem>, answers: seq<Response>): Reads {
    Reads(Ok(true), Some(items), map[], Some(items), answers, 0, 0)
  }

  /** A pod that serves the version and has nothing to restore. */
  function ServingAnswer(appVersion: string): Response {
    Response(200, 0, Some(map[
      "occupied" := JInt(0), "restoring" := JInt(0), "shedding" := JNull,
      "deployment" := JDeployment(Deployment(appVersion, 1, 0, 0))]))
  }

  function ServingState(appVersion: string): PodState {
    PodState(0, 0, 0, None, Some(Deployment(appVersion, 1, 0, 0)))
  }

  lemma ServingAccepted(appVersion: string)
    requires appVersion != ""
    ensures Accept(ServingAnswer(appVersion)) == Ok(ServingState(appVersion))
  {
    var fields := ServingAnswer(appVersion).fields.value;
    assert CarriesRequired(fields);
    assert Decode(fields) == Ok(ServingState(appVersion));
    assert Observes(ServingAnswer(appVersion), ServingState(appVersion));
  }

  lemma FullListing(fleet: string, pods: map<nat, Protocol.Pod>, n: nat)
    requires n >= 1 && Reach.Healthy(pods, n)
    ensures FullFleet(Reach.Listing(fleet, pods, n), fleet, n) && Reach.Reachable(Reach.Listing(fleet, pods, n))
  {
    Reach.ListingLists(fleet, pods, n);
  }

  /** A full fleet, of whatever revisions, can be listed and answer alike. */
  lemma AnsweringFleet(fleet: string, pods: map<nat, Protocol.Pod>, n: nat, answer: Response, state: PodState)
    returns (items: seq<PodItem>, answers: seq<Response>)
    requires n >= 1 && Reach.Healthy(pods, n) && Accept(answer) == Ok(state) && state.restoring == 0
    ensures items == Reach.Listing(fleet, pods, n)
    ensures var sample := ObserveFleet(items, answers, fleet, n);
            Reach.Idle(sample) && forall name :: name in sample.value.states ==> sample.value.states[name] == state
  {
    items := Reach.Listing(fleet, pods, n);
    FullListing(fleet, pods, n);
    answers := seq(|items|, i => answer);
    Reach.UniformSample(items, answers, fleet, n, answer, state);
  }

  /** The status of a controller that has done what the object asks. */
  function Done(sts: Sts): Sts {
    var n := sts.spec.replicas;
    sts.(status := Status(sts.generation, Some(sts.spec.template), n, n, n))
  }

  function Pass(app: App, desired: Template, sts: Sts, read: Reads): Round {
    Round(sts, FindingsOf(CelldPolicy(), app, desired, sts, read), true)
  }

  lemma Drained(app: App, desired: Template, appVersion: string, existing: Sts) returns (r: Round, read: Reads)
    requires FleetHazard(existing.spec.template, desired) != Safe && app.strategy == Recreate
    requires TemplateChanged(existing, desired) && !existing.recreating && existing.spec.replicas != 0
    requires existing.controlled
    requires RuntimeChangeRefusal(existing.spec.template.image, app.image, true) == Allowed
    ensures r == Pass(app, desired, existing, read)
    ensures r.existing == existing && Makes(app, desired, appVersion, r) == [Drain]
    ensures After(app, desired, appVersion, r) == Stored(existing, DrainFleet(existing))
  {
    read := Seeing([], []);
    r := Pass(app, desired, existing, read);
    BreakingDrainCooperates(app, desired, appVersion, r, read);
    CooperationProgresses(app, desired, appVersion, r);
    RoundFollowsPlan(app, desired, appVersion, r);
  }

  lemma Restarted(app: App, desired: Template, appVersion: string, existing: Sts) returns (r: Round, read: Reads)
    requires existing.recreating && existing.spec.replicas == 0 && existing.controlled && existing == Done(existing)
    requires RuntimeChangeRefusal(existing.spec.template.image, app.image, app.strategy == Recreate) == Allowed
    ensures r == Pass(app, desired, existing, read)
    ensures r.existing == existing && Makes(app, desired, appVersion, r) == [Restart]
    ensures After(app, desired, appVersion, r)
              == Stored(existing, RestartFleet(existing, desired, DesiredReplicas(app)))
  {
    read := Seeing([], []);
    r := Pass(app, desired, existing, read);
  }

  lemma Finished(app: App, desired: Template, appVersion: string, existing: Sts) returns (r: Round, read: Reads)
    requires !MustPause(app, existing, desired) && existing.spec.replicas > 0 && existing.controlled
    requires existing == Done(existing) && existing.spec.template.image == app.image && appVersion != ""
    ensures r == Pass(app, desired, existing, read)
    ensures r.existing == existing && ReportsReady(app, desired, appVersion, r)
  {
    ServingAccepted(appVersion);
    var n := existing.spec.replicas;
    var pods := Reach.Fleet(Protocol.Revision(desired, 0), 0, n);
    var items, answers := AnsweringFleet(app.fleet, pods, n, ServingAnswer(appVersion), ServingState(appVersion));
    read := Seeing(items, answers);
    r := Pass(app, desired, existing, read);
    SameImageAllowed(app.image, app.strategy == Recreate);
    RolledOutIff(app, desired, appVersion, existing, r.f);
  }

  lemma Follows(app: App, desired: Template, appVersion: string, r: Round, s: Round, t: Round)
    requires s.existing == After(app, desired, appVersion, r).(status := s.existing.status)
    requires t.existing == After(app, desired, appVersion, s).(status := t.existing.status)
    ensures History(app, desired, appVersion, [r, s, t])
    ensures Written(app, desired, appVersion, [r, s, t], 2)
         == Makes(app, desired, appVersion, r) + Makes(app, desired, appVersion, s)
  {
    var rounds := [r, s, t];
    assert Written(app, desired, appVersion, rounds, 0) == [];
    assert Written(app, desired, appVersion, rounds, 1) == [] + Makes(app, desired, appVersion, r);
  }

  /** From any running fleet, three passes of the operator reach Ready: the pods are gone, then the new ones serve. */
  lemma ReachesReady(app: App, desired: Template, appVersion: string, existing: Sts)
    returns (rounds: seq<Round>, listings: seq<Reads>)
    requires FleetHazard(existing.spec.template, desired) != Safe && app.strategy == Recreate && appVersion != ""
    requires TemplateChanged(existing, desired) && !existing.recreating && existing.spec.replicas != 0
    requires existing.controlled
    requires RuntimeChangeRefusal(existing.spec.template.image, app.image, true) == Allowed
    requires desired.image == app.image && DesiredReplicas(app) > 0
    ensures |rounds| == |listings| == 3 && rounds[0].existing == existing && History(app, desired, appVersion, rounds)
    ensures forall i :: 0 <= i < 3 ==> rounds[i] == Pass(app, desired, rounds[i].existing, listings[i])
    ensures Written(app, desired, appVersion, rounds, 2) == [Drain, Restart]
    ensures ReportsReady(app, desired, appVersion, rounds[2])
  {
    var r, a := Drained(app, desired, appVersion, existing);
    var s, b := Restarted(app, desired, appVersion, Done(After(app, desired, appVersion, r)));
    var t, c := Finished(app, desired, appVersion, Done(After(app, desired, appVersion, s)));
    Follows(app, desired, appVersion, r, s, t);
    rounds, listings := [r, s, t], [a, b, c];
  }
}

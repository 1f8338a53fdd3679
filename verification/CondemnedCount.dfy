/**
  Why a count of updated replicas must be one of the ordinals the fleet is to have. Here the last report is true of all
  pods there are, but one of the updated pods it counts is beyond the new scale and about to go; the pass that reads
  it finds every remaining pod healthy and serving, and reports the rollout completed over a pod that was never updated.
 */
module CondemnedCount {
  import opened Prelude
  import opened Versions
  import opened ImageTags
  import opened Compatibility
  import opened Census
  import opened Rollout
  import opened Protocol
  import opened Reach
  import BreakingRecreate
  import Spacing
  import StaleRevision
  import TrueReports

  /** Every count of the report is true, of all pods there are. */
  predicate CountsAllPods(s: System, replicas: nat, ready: nat, updated: nat)
    requires s.Wf()
  {
    && replicas == |s.pods| && ready == |(set ord | ord in s.pods && s.pods[ord].ready)|
    && updated == |(set ord | ord in s.pods && s.pods[ord].rev.template == s.View().sts.spec.template)|
  }

  /** Two pods, ordinal 1 updated and ordinal 0 not. */
  predicate HalfUpdated(s: System, a: Template, b: Template) {
    && s.pods.Keys == {0, 1} && s.pods[0].rev.template == a && s.pods[1].rev.template == b
    && s.pods[0].ready && !s.pods[0].deleting
  }

  /** Both ordinals are released, and the controller has replaced the higher one. */
  lemma ReleasesBoth(policy: Policy, s: System, a: Template, b: Template) returns (t: System)
    requires Ours(s) && s.viewAt == s.LastAt() && s.Live().sts.spec == Spec(b, 2, 2) && Healthy(s.pods, 2) && a != b
    requires forall ord :: ord in s.pods ==> s.pods[ord].rev.template == a
    requires Answerable(policy) && !policy.refused(b.image, b.image, false)
    ensures Leads(policy, Freely, s, t) && Ours(t) && t.Live().sts.spec == Spec(b, 2, 0) && HalfUpdated(t, a, b)
  {
    var one := ReleasesNext(policy, Freely, s, map[]);
    var replaced := Replaces(policy, Freely, one, 1);
    LeadsTrans(policy, Freely, s, one, replaced);
    var gate := map[1 := Found(ItemOf("fleet", 1, replaced.pods[1]))];
    assert AllUpdated(gate, b, 1, 2);
    t := ReleasesNext(policy, Freely, replaced, gate);
    LeadsTrans(policy, Freely, s, replaced, t);
  }

  /** The fleet is scaled to one, and the pod that is to go is no longer ready. */
  lemma ScalesDown(policy: Policy, s: System, a: Template, b: Template) returns (t: System)
    requires Ours(s) && s.Live().sts.spec == Spec(b, 2, 0) && HalfUpdated(s, a, b)
    ensures Leads(policy, Freely, s, t) && Ours(t) && t.viewAt == t.LastAt() && t.Live().sts.spec == Spec(b, 1, 0)
    ensures HalfUpdated(t, a, b) && !t.pods[1].ready
  {
    LeadsHere(policy, Freely, s);
    var scaled := WithVersion(s, Scaled(s.Live(), 1));
    LeadsOn(policy, Freely, s, s, Rescaled(1), scaled);
    var taken := TakesUp(policy, Freely, scaled);
    LeadsTrans(policy, Freely, s, scaled, taken);
    t := WithPod(taken, 1, taken.pods[1].(ready := false));
    LeadsOn(policy, Freely, s, taken, PodUnready(1), t);
  }

  lemma CountsOfTwo(s: System, a: Template, b: Template)
    requires s.Wf() && HalfUpdated(s, a, b) && !s.pods[1].ready && a != b && s.View().sts.spec.template == b
    ensures CountsAllPods(s, 2, 1, 1)
  {
    assert |s.pods| == |s.pods.Keys|;
    assert (set ord | ord in s.pods && s.pods[ord].ready) == {0};
    assert (set ord | ord in s.pods && s.pods[ord].rev.template == b) == {1};
  }

  /** A full fleet can answer that it serves this version and is idle. */
  ghost predicate Servable(policy: Policy, appVersion: string) {
    forall items: seq<PodItem>, fleet: string, n: nat :: FullFleet(items, fleet, n) && Reachable(items) ==>
      exists answers :: FoundServing(policy.observe(items, answers, fleet, n), appVersion)
  }

  predicate FoundServing(sample: Option<Sample>, appVersion: string) {
    sample.Some? && sample.value.restoring == 0 && Serving(sample.value.states, appVersion)
  }

  lemma CelldServable(appVersion: string)
    requires appVersion != ""
    ensures Servable(CelldPolicy(), appVersion)
  {
    BreakingRecreate.ServingAccepted(appVersion);
    var answer, state := BreakingRecreate.ServingAnswer(appVersion), BreakingRecreate.ServingState(appVersion);
    forall items: seq<PodItem>, fleet: string, n: nat | FullFleet(items, fleet, n) && Reachable(items)
      ensures exists answers :: FoundServing(CelldPolicy().observe(items, answers, fleet, n), appVersion)
    {
      var answers := seq(|items|, i => answer);
      UniformSample(items, answers, fleet, n, answer, state);
      assert FoundServing(CelldPolicy().observe(items, answers, fleet, n), appVersion);
    }
  }

  /** The pod beyond the scale goes, and a pass starts on what was reported. */
  lemma StartsOnOne(policy: Policy, s: System, a: Template, b: Template, appVersion: string)
    returns (t: System, p: Pass)
    requires Ours(s) && HalfUpdated(s, a, b)
    ensures Leads(policy, Freely, s, t) && t.Wf() && t == s.(pods := map[0 := s.pods[0]], passes := s.passes + {p})
    ensures var app := App("fleet", b.image, Rolling, false, Some(1), None);
            p == Started(policy, s.LastAt(), s.Live(), s.now, app, b, appVersion, Ok(true))
  {
    LeadsHere(policy, Freely, s);
    var gone := s.(pods := s.pods - {1});
    LeadsOn(policy, Freely, s, s, PodGone(1), gone);
    assert gone.pods == map[0 := s.pods[0]];
    var app := App("fleet", b.image, Rolling, false, Some(1), None);
    p := Started(policy, s.LastAt(), s.Live(), s.now, app, b, appVersion, Ok(true));
    t := gone.(passes := gone.passes + {p});
    LeadsOn(policy, Freely, s, gone, Begin(app, b, appVersion, Ok(true)), t);
  }

  lemma ServingFleet(policy: Policy, pods: map<nat, Pod>, appVersion: string)
    returns (items: seq<PodItem>, answers: seq<Response>)
    requires Healthy(pods, 1) && Servable(policy, appVersion)
    ensures Lists(items, "fleet", pods) && FoundServing(policy.observe(items, answers, "fleet", 1), appVersion)
  {
    items := Listing("fleet", pods, 1);
    ListingLists("fleet", pods, 1);
    assert FullFleet(items, "fleet", 1) && Reachable(items);
    answers :| FoundServing(policy.observe(items, answers, "fleet", 1), appVersion);
  }

  /** It lists the one pod left, ready and serving. */
  lemma SamplesOne(policy: Policy, s: System, t: System, p: Pass, appVersion: string) returns (u: System, q: Pass)
    requires Leads(policy, Freely, s, t) && t.Wf() && p in t.passes && p.at == t.LastAt() && p.app.fleet == "fleet"
    requires Healthy(t.pods, 1) && t.Live().sts.spec.replicas == 1 && Servable(policy, appVersion)
    ensures Leads(policy, Freely, s, u) && u.Wf() && u == t.(passes := u.passes) && q in u.passes
    ensures q == p.(f := q.f) && q.f == p.f.(sample := q.f.sample, listed := q.f.listed)
    ensures FoundServing(q.f.sample, appVersion)
  {
    var items, answers := ServingFleet(policy, t.pods, appVersion);
    q := AfterFleet(policy, t.Live(), p, items, answers);
    u := WithPass(t, p, q);
    LeadsOn(policy, Freely, s, t, ReadFleet(p, items, answers), u);
  }

  /** Once the pod beyond the scale is gone, a pass finds the fleet complete. */
  lemma FindsOne(policy: Policy, s: System, a: Template, b: Template, appVersion: string) returns (t: System, p: Pass)
    requires Ours(s) && s.Live().sts.spec == Spec(b, 1, 0) && HalfUpdated(s, a, b)
    requires Servable(policy, appVersion) && !policy.refused(b.image, b.image, false)
    requires var sts := s.Live().sts; sts.status == Status(sts.generation, Some(b), 2, 1, 1)
    ensures Leads(policy, Freely, s, t) && t.Wf() && t.versions == s.versions && p in t.passes
    ensures p.at == t.LastAt() && p.desired == b && TrueReports.FindsCompleted(t, p) && t.pods == map[0 := s.pods[0]]
  {
    var begun, q := StartsOnOne(policy, s, a, b, appVersion);
    t, p := SamplesOne(policy, s, begun, q, appVersion);
    RolledOutIff(p.app, b, appVersion, s.Live().sts, p.f);
  }

  /** The report at m is true of all pods there are, and ordinal 0 has not been updated. */
  lemma ReachesHalfUpdated(policy: Policy, a: Template, b: Template) returns (s: System, m: System)
    requires a != b && policy.compatible(a, b) && !policy.refused(a.image, b.image, false)
    requires !policy.refused(b.image, b.image, false) && Answerable(policy)
    ensures Init(s) && Leads(policy, Freely, s, m) && Ours(m) && m.viewAt == m.LastAt()
    ensures m.Live().sts.spec == Spec(b, 1, 0) && HalfUpdated(m, a, b) && CountsAllPods(m, 2, 1, 1)
  {
    var two;
    s, two := Spacing.FleetOfTwo(policy, 0, a, b);
    LeadsLoosely(policy, Promptly(0), Freely, s, two);
    var rolled := ReleasesBoth(policy, two, a, b);
    LeadsTrans(policy, Freely, s, two, rolled);
    m := ScalesDown(policy, rolled, a, b);
    LeadsTrans(policy, Freely, s, rolled, m);
    CountsOfTwo(m, a, b);
  }

  /**
    The report at m is true of all pods there are, the pass p reads it and reports the rollout completed, nothing has
    been written since, and the one live pod runs the old template.
   */
  lemma CondemnedPodCounts(policy: Policy, a: Template, b: Template, appVersion: string)
    returns (s: System, m: System, u: System, t: System, p: Pass)
    requires a != b && policy.compatible(a, b) && !policy.refused(a.image, b.image, false)
    requires !policy.refused(b.image, b.image, false) && Answerable(policy) && Servable(policy, appVersion)
    ensures Init(s) && Leads(policy, Freely, s, m) && m.Wf() && CountsAllPods(m, 2, 1, 1)
    ensures Next(policy, m, Report(2, 1, 1, false), u) && u.Wf() && Leads(policy, Freely, u, t) && t.Wf()
    ensures p in t.passes && TrueReports.ReadsReport(t, p, u) && TrueReports.FindsCompleted(t, p)
    ensures t.versions == u.versions && p.desired == b && t.pods.Keys == {0} && t.pods[0].rev.template == a
  {
    s, m := ReachesHalfUpdated(policy, a, b);
    u := WithVersion(m, Reported(m.Live(), m.View(), 2, 1, 1, false));
    t, p := FindsOne(policy, u, a, b, appVersion);
  }

  /** Under celld's rules, with accepted images 0.5 and 0.6 on bucket durability. */
  lemma CelldCondemnedPodCounts(appVersion: string)
    returns (a: Template, b: Template, s: System, m: System, u: System, t: System, p: Pass)
    requires appVersion != ""
    ensures RuntimeOf(a) == Runtime(Some(Minor(0, 5)), false) && RuntimeOf(b) == Runtime(Some(Minor(0, 6)), false)
    ensures AcceptedImage(a.image) && AcceptedImage(b.image)
    ensures Init(s) && Leads(CelldPolicy(), Freely, s, m) && m.Wf() && CountsAllPods(m, 2, 1, 1)
    ensures Next(CelldPolicy(), m, Report(2, 1, 1, false), u) && u.Wf() && Leads(CelldPolicy(), Freely, u, t) && t.Wf()
    ensures p in t.passes && TrueReports.ReadsReport(t, p, u) && TrueReports.FindsCompleted(t, p)
    ensures t.versions == u.versions && p.desired == b && t.pods.Keys == {0} && t.pods[0].rev.template == a
  {
    var fleetDurable;
    fleetDurable, a, b := StaleRevision.CelldLaunders();
    CelldAnswerable();
    CelldServable(appVersion);
    StaleRevision.CelldRules(b, b);
    SameImageAllowed(b.image, false);
    s, m, u, t, p := CondemnedPodCounts(CelldPolicy(), a, b, appVersion);
  }
}

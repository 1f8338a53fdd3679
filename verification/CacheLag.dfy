/**
  Why the gate's cache must not lag behind a release when a template is installed again. With a cache that is
  only no older than the last template write, a rollout that goes back to a template still in use takes
  two pods down at once, although every release passed both gates.
 */
module CacheLag {
  import opened Prelude
  import opened GoText
  import opened Versions
  import opened ImageTags
  import opened Compatibility
  import opened Census
  import opened Rollout
  import opened Protocol
  import opened Reach
  import OneDisruption

  /** Three different templates any two of which may share a fleet, none of them refused. */
  ghost predicate Interchangeable(policy: Policy, a: Template, b: Template, c: Template) {
    && a != b && b != c && a != c
    && forall x, y :: x in {a, b, c} && y in {a, b, c} ==>
        policy.compatible(x, y) && !policy.refused(x.image, y.image, false)
  }

  /** A fleet of n at rest on one template. */
  function Resting(template: Template, n: nat): System {
    var status := Status(0, Some(template), n, n, n);
    var sts := Sts(Spec(template, n, 0), Some(Fingerprint(template)), false, None, 0, status, true);
    var rev := Revision(template, 0);
    var pods := Fleet(rev, 0, n);
    System([Version(sts, 0, rev, Creation, 0, true)], 0, pods, {}, 0, {rev}, Shown(pods), Shown(pods))
  }

  lemma RestingIsAtRest(template: Template, n: nat)
    ensures OneDisruption.AtRest(Resting(template, n), n)
  {
  }

  /** A pod of this template at each of the two highest ordinals, the fleet healthy and the object the operator's. */
  ghost predicate Stage(s: System, n: nat, live: Template, partition: nat, top: Template, next: Template) {
    && n >= 2 && Ours(s) && Healthy(s.pods, n)
    && s.Live().sts.spec == Spec(live, n, partition)
    && s.pods[n - 1].rev.template == top && s.pods[n - 2].rev.template == next
  }

  predicate OnlyThese(s: System, a: Template, b: Template, c: Template) {
    forall ord :: ord in s.pods ==> s.pods[ord].rev.template in {a, b, c}
  }

  lemma Welcomes(policy: Policy, s: System, desired: Template, a: Template, b: Template, c: Template)
    requires s.Wf() && OnlyThese(s, a, b, c) && Interchangeable(policy, a, b, c)
    requires s.Live().sts.spec.template in {a, b, c} && desired in {a, b, c}
    ensures Welcome(policy, s, desired) && !policy.refused(desired.image, desired.image, false)
  {
  }

  /** A template is installed and the controller takes it up. */
  lemma InstallsAndTakesUp(policy: Policy, s: System, n: nat, partition: nat, top: Template, next: Template,
                 desired: Template, a: Template, b: Template, c: Template)
    returns (t: System)
    requires s.Wf() && Stage(s, n, s.Live().sts.spec.template, partition, top, next) && OnlyThese(s, a, b, c)
    requires Interchangeable(policy, a, b, c) && desired in {a, b, c}
    requires s.Live().sts.spec.template in {a, b, c} - {desired}
    ensures Leads(policy, Cached, s, t) && Stage(t, n, desired, n, top, next) && t.pods == s.pods
    ensures t.viewAt == t.LastAt()
  {
    Welcomes(policy, s, desired, a, b, c);
    var installed := InstallsChecked(policy, Cached, s, desired);
    t := TakesUp(policy, Cached, installed);
    LeadsTrans(policy, Cached, s, installed, t);
  }

  /** And its first ordinal is released. */
  lemma InstallsAndReleases(policy: Policy, s: System, n: nat, partition: nat, top: Template, next: Template,
                            desired: Template, a: Template, b: Template, c: Template)
    returns (t: System)
    requires s.Wf() && Stage(s, n, s.Live().sts.spec.template, partition, top, next) && OnlyThese(s, a, b, c)
    requires Answerable(policy)
    requires Interchangeable(policy, a, b, c) && desired in {a, b, c}
    requires s.Live().sts.spec.template in {a, b, c} - {desired}
    ensures Leads(policy, Cached, s, t) && Stage(t, n, desired, n - 1, top, next) && t.pods == s.pods
    ensures t.viewAt == t.LastAt()
  {
    var taken := InstallsAndTakesUp(policy, s, n, partition, top, next, desired, a, b, c);
    t := ReleasesNext(policy, Cached, taken, map[]);
    LeadsTrans(policy, Cached, s, taken, t);
  }

  /** The controller replaces the highest ordinal from its copy. */
  lemma ReplacesTop(policy: Policy, s: System, n: nat, live: Template, partition: nat, top: Template, next: Template,
                    viewed: Template, a: Template, b: Template, c: Template)
    returns (t: System)
    requires Stage(s, n, live, partition, top, next) && OnlyThese(s, a, b, c) && viewed in {a, b, c} && viewed != top
    requires s.View().sts.spec == Spec(viewed, n, n - 1)
    ensures Leads(policy, Cached, s, t) && Stage(t, n, live, partition, viewed, next) && OnlyThese(t, a, b, c)
    ensures t == s.(pods := t.pods, recent := t.recent, seen := t.seen) && s.seen <= t.seen
  {
    t := Replaces(policy, Cached, s, n - 1);
  }

  /**
    From c everywhere, a is rolled out to the highest ordinal, and then b is installed and its first ordinal
    released.
   */
  lemma RollsTwice(policy: Policy, n: nat, a: Template, b: Template, c: Template) returns (t: System)
    requires Interchangeable(policy, a, b, c) && n >= 2 && Answerable(policy)
    ensures Leads(policy, Cached, Resting(c, n), t) && Stage(t, n, b, n - 1, a, c) && OnlyThese(t, a, b, c)
    ensures t.viewAt == t.LastAt()
  {
    var s := Resting(c, n);
    var released := InstallsAndReleases(policy, s, n, 0, c, c, a, a, b, c);
    var replaced := ReplacesTop(policy, released, n, a, n - 1, c, c, a, a, b, c);
    LeadsTrans(policy, Cached, s, released, replaced);
    t := InstallsAndReleases(policy, replaced, n, n - 1, a, c, b, a, b, c);
    LeadsTrans(policy, Cached, s, replaced, t);
  }

  /**
    Then a is installed again. The cache may still show the highest ordinal on a, ready, when the controller, on its
    copy of the object from before, replaces that pod by one of b.
   */
  lemma Reinstalls(
    policy: Policy, s: System, n: nat, a: Template, b: Template, c: Template)
    returns (t: System, stale: Pod)
    requires n >= 2 && Interchangeable(policy, a, b, c) && Stage(s, n, b, n - 1, a, c) && OnlyThese(s, a, b, c)
    requires s.viewAt == s.LastAt()
    ensures Leads(policy, Cached, s, t) && Stage(t, n, a, n, b, c) && t.viewAt == t.LastAt()
    ensures (n - 1, stale) in t.seen && stale.ready && !stale.deleting && stale.rev.template == a
  {
    Welcomes(policy, s, a, a, b, c);
    var installed := InstallsChecked(policy, Cached, s, a);
    stale := s.pods[n - 1];
    assert (n - 1, stale) in Shown(s.pods);
    var replaced := ReplacesTop(policy, installed, n, a, n, a, c, b, a, b, c);
    LeadsTrans(policy, Cached, s, installed, replaced);
    t := TakesUp(policy, Cached, replaced);
    LeadsTrans(policy, Cached, s, replaced, t);
  }

  /**
    Two releases follow, the second past a gate that reads the highest ordinal as it was; now two pods are
    outdated.
   */
  lemma ReleasesTwice(
    policy: Policy, s: System, n: nat, a: Template, b: Template, c: Template, stale: Pod)
    returns (t: System)
    requires n >= 2 && Interchangeable(policy, a, b, c) && Answerable(policy) && Stage(s, n, a, n, b, c)
    requires s.viewAt == s.LastAt()
    requires (n - 1, stale) in s.seen && stale.ready && !stale.deleting && stale.rev.template == a
    ensures Leads(policy, Cached, s, t) && Stage(t, n, a, n - 2, b, c) && t.viewAt == t.LastAt()
  {
    var once := ReleasesNext(policy, Cached, s, map[]);
    var gate := map[n - 1 := Found(ItemOf("fleet", n - 1, stale))];
    assert Shows(gate[n - 1].pod, "fleet", n - 1, stale);
    assert AllUpdated(gate, a, n - 1, n);
    t := ReleasesNext(policy, Cached, once, gate);
    LeadsTrans(policy, Cached, s, once, t);
  }

  /** And the controller may take both down. */
  lemma TakesBothDown(policy: Policy, s: System, n: nat, a: Template, b: Template, c: Template) returns (t: System)
    requires n >= 2 && a != b && a != c && Stage(s, n, a, n - 2, b, c) && s.viewAt == s.LastAt()
    ensures Leads(policy, Cached, s, t) && OneDisruption.Down(t.pods, n - 1) && OneDisruption.Down(t.pods, n - 2)
  {
    LeadsHere(policy, Cached, s);
    var one := WithPod(s, n - 1, s.pods[n - 1].(deleting := true));
    LeadsOn(policy, Cached, s, s, DeletePod(n - 1), one);
    t := WithPod(one, n - 2, one.pods[n - 2].(deleting := true));
    LeadsOn(policy, Cached, s, one, DeletePod(n - 2), t);
  }

  /**
    So a cache that is only no older than the last template write does not keep it to one pod at a time: for every fleet
    of two or more there is such a run, from rest, that ends with two pods down.
   */
  lemma LaggingCacheTakesTwoDown(policy: Policy, n: nat, a: Template, b: Template, c: Template) returns (t: System)
    requires Interchangeable(policy, a, b, c) && n >= 2 && Answerable(policy)
    ensures OneDisruption.AtRest(Resting(c, n), n) && Leads(policy, Cached, Resting(c, n), t)
    ensures OneDisruption.Down(t.pods, n - 1) && OneDisruption.Down(t.pods, n - 2)
  {
    RestingIsAtRest(c, n);
    var twice := RollsTwice(policy, n, a, b, c);
    var again, stale := Reinstalls(policy, twice, n, a, b, c);
    LeadsTrans(policy, Cached, Resting(c, n), twice, again);
    var released := ReleasesTwice(policy, again, n, a, b, c, stale);
    LeadsTrans(policy, Cached, Resting(c, n), again, released);
    t := TakesBothDown(policy, released, n, a, b, c);
    LeadsTrans(policy, Cached, Resting(c, n), released, t);
  }

  lemma SameImageRules(x: Template, y: Template)
    requires x.image == y.image && x.durability == y.durability
    ensures CelldPolicy().compatible(x, y) && !CelldPolicy().refused(x.image, y.image, false)
  {
    SameRuntimeCompatible(x, y);
    SameImageAllowed(x.image, false);
  }

  lemma CelldInterchangeable() returns (a: Template, b: Template, c: Template)
    ensures Interchangeable(CelldPolicy(), a, b, c) && AcceptedImage(a.image) && a.image == b.image == c.image
  {
    var image := ReleaseImage(0, 6);
    ReleaseImageReads(0, 6);
    var bucket := Some(BUCKET_DURABILITY);
    a := Template(image, bucket, Some("1"), None, "");
    b := Template(image, bucket, Some("2"), None, "");
    c := Template(image, bucket, Some("3"), None, "");
    forall x, y | x in {a, b, c} && y in {a, b, c}
      ensures CelldPolicy().compatible(x, y) && !CelldPolicy().refused(x.image, y.image, false)
    {
      SameImageRules(x, y);
    }
  }

  /** With three versions of one app on one runtime: 3 at rest, then 1, then 2, then 1 again. */
  lemma CelldLaggingCache(n: nat) returns (a: Template, b: Template, c: Template, t: System)
    requires n >= 2
    ensures AcceptedImage(c.image) && OneDisruption.AtRest(Resting(c, n), n)
    ensures Leads(CelldPolicy(), Cached, Resting(c, n), t)
    ensures OneDisruption.Down(t.pods, n - 1) && OneDisruption.Down(t.pods, n - 2)
  {
    a, b, c := CelldInterchangeable();
    CelldAnswerable();
    t := LaggingCacheTakesTwoDown(CelldPolicy(), n, a, b, c);
  }
}

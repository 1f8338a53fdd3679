/**
  The hypothesis about recreated pods is needed: under celld's own compatibility rules, a fleet the
  operator created reaches a state in which two live pods are incompatible, although
  every template write was checked against the template before it and every pod it landed on.
 */
module StaleRevision {
  import opened Prelude
  import opened GoText
  import opened Versions
  import opened ImageTags
  import opened Compatibility
  import opened Census
  import opened Rollout
  import opened Protocol
  import opened Reach
  import opened CurrentRevision

  /** Each of two changes may be made and is compatible; taken together they are not. */
  ghost predicate Launders(policy: Policy, a: Template, b: Template, c: Template) {
    && policy.compatible(a, b) && policy.compatible(b, c) && !policy.compatible(a, c) && a != b && b != c
    && !policy.refused(a.image, b.image, false) && !policy.refused(b.image, c.image, false)
    && !policy.refused(c.image, c.image, false)
  }

  /** The controller reports on the new fleet, and two changes in a row are made before its pods are up. */
  lemma TwoChanges(policy: Policy, s: System, b: Template, c: Template) returns (first: System, second: System)
    requires Ours(s) && s.viewAt == s.LastAt() && s.pods == map[] && Launders(policy, s.Live().sts.spec.template, b, c)
    ensures Leads(policy, Counted, s, first) && first.Wf() && first.Live().Rev() == Revision(b, s.Live().era + 1)
    ensures Leads(policy, Counted, first, second) && Ours(second) && second.viewAt == second.LastAt()
    ensures second.Live().Rev() == Revision(c, s.Live().era + 2) && second.Live().current == s.Live().current
    ensures second.Live().sts.spec.replicas == second.Live().sts.spec.partition == s.Live().sts.spec.replicas
  {
    var reported := Rests(policy, Counted, s);
    first := InstallsChecked(policy, Counted, reported, b);
    LeadsTrans(policy, Counted, s, reported, first);
    var installed := InstallsChecked(policy, Counted, first, c);
    second := TakesUp(policy, Counted, installed);
    LeadsTrans(policy, Counted, first, installed, second);
  }

  /** Then its pods come up from the first template, and the first release puts the last one beside them. */
  lemma LaunderedFleetMixes(policy: Policy, a: Template, b: Template, c: Template, n: nat)
    returns (s: System, m: System, t: System)
    requires Launders(policy, a, b, c) && Answerable(policy) && n >= 2
    ensures Init(s) && s.Live().sts.spec == Spec(a, n, 0) && m.Wf() && m.Live().sts.spec.template == b
    ensures Leads(policy, Counted, s, m) && Leads(policy, Counted, m, t)
    ensures {Revision(a, 0), Revision(c, 2)} <= Revisions(t.pods)
  {
    s := Created(a, n);
    var first, second := TwoChanges(policy, s, b, c);
    m := first;
    t := OldMeetsNew(policy, second);
    LeadsLoosely(policy, Quietly, Counted, second, t);
    LeadsTrans(policy, Counted, m, second, t);
  }

  lemma CelldRules(a: Template, b: Template)
    ensures CelldPolicy().compatible(a, b) == (FleetHazard(a, b) == Safe)
    ensures CelldPolicy().refused(a.image, b.image, false)
         == (RuntimeChangeRefusal(a.image, b.image, false) != Allowed)
  {
  }

  lemma CelldLaunders() returns (a: Template, b: Template, c: Template)
    ensures Launders(CelldPolicy(), a, b, c) && FleetHazard(a, c) == ReplicationStreams
    ensures AcceptedImage(a.image) && AcceptedImage(b.image) && AcceptedImage(c.image)
    ensures RuntimeOf(a) == Runtime(Some(Minor(0, 5)), true) && RuntimeOf(b) == Runtime(Some(Minor(0, 5)), false)
    ensures RuntimeOf(c) == Runtime(Some(Minor(0, 6)), false)
  {
    a, b, c := DurabilityHazardIsLaundered();
    UpgradeAllowed(a.image, b.image, Minor(0, 5), Minor(0, 5), false);
    UpgradeAllowed(b.image, c.image, Minor(0, 5), Minor(0, 6), false);
    UpgradeAllowed(c.image, c.image, Minor(0, 6), Minor(0, 6), false);
    CelldRules(a, b);
    CelldRules(b, c);
    CelldRules(a, c);
    CelldRules(c, c);
  }

  /**
    A 0.5 fleet on fleet durability, of any size validation allows it, is created and edited to bucket durability and
    then to 0.6 before its pods are up. Both edits pass the check, the pods come up from the first
    template, and the first release puts a 0.6 pod beside them.
   */
  lemma CelldFleetMixes(n: nat) returns (a: Template, b: Template, c: Template, s: System, m: System, t: System)
    requires n >= 3
    ensures AcceptedImage(a.image) && AcceptedImage(b.image) && AcceptedImage(c.image)
    ensures RuntimeOf(a) == Runtime(Some(Minor(0, 5)), true) && RuntimeOf(b) == Runtime(Some(Minor(0, 5)), false)
    ensures RuntimeOf(c) == Runtime(Some(Minor(0, 6)), false) && FleetHazard(a, c) == ReplicationStreams
    ensures Init(s) && s.Live().sts.spec == Spec(a, n, 0) && m.Wf() && m.Live().sts.spec.template == b
    ensures Leads(CelldPolicy(), Counted, s, m) && Leads(CelldPolicy(), Counted, m, t)
    ensures {Revision(a, 0), Revision(c, 2)} <= Revisions(t.pods)
  {
    a, b, c := CelldLaunders();
    CelldAnswerable();
    s, m, t := LaunderedFleetMixes(CelldPolicy(), a, b, c, n);
  }
}

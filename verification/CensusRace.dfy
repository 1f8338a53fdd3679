/**
  Why the pods a template write lands on matter, not only those its census saw. Every pod of this run is created with a
  revision the last template write brought together, and every template write passed its check; but one of them
  lands on pods that came up after its census, and incompatible pods come to run together.
 */
module CensusRace {
  import opened Prelude
  import opened ImageTags
  import opened Compatibility
  import opened Census
  import opened Rollout
  import opened Protocol
  import opened Reach
  import opened StaleRevision

  /** A fleet just created is given b before its pods are up, and a pass checks c against b and no pods. */
  lemma ChecksNoPods(policy: Policy, a: Template, b: Template, c: Template, n: nat)
    returns (s: System, t: System, p: Pass)
    requires Launders(policy, a, b, c)
    ensures Init(s) && s.Live().sts.spec == Spec(a, n, 0) && Leads(policy, Knowingly, s, t) && Ours(t)
    ensures t.viewAt == t.LastAt() && t.pods == map[] && t.Live().Rev() == Revision(b, 1)
    ensures t.Live().sts.spec == Spec(b, n, n) && t.Live().current == Revision(a, 0) && Revision(a, 0) in t.cleared
    ensures Proposing(t, p, c)
  {
    s := Created(a, n);
    var reported := Rests(policy, Knowingly, s);
    var installed := InstallsChecked(policy, Knowingly, reported, b);
    LeadsTrans(policy, Knowingly, s, reported, installed);
    var taken := TakesUp(policy, Knowingly, installed);
    LeadsTrans(policy, Knowingly, s, installed, taken);
    t, p := ChecksFleet(policy, Knowingly, taken, c);
    LeadsTrans(policy, Knowingly, s, taken, t);
  }

  /** The pods come up from a, and the pass's write of c lands on them. */
  lemma LandsOnLatePods(policy: Policy, s: System, p: Pass, a: Revision, c: Template, n: nat) returns (t: System)
    requires Ours(s) && s.viewAt == s.LastAt() && s.pods == map[]
    requires s.Live().sts.spec == Spec(s.Live().sts.spec.template, n, n) && s.Live().current == a && a in s.cleared
    requires Proposing(s, p, c) && s.Live().sts.spec.template != c
    ensures Leads(policy, Knowingly, s, t) && Ours(t) && t.viewAt == t.LastAt() && t.pods == Fleet(a, s.viewAt, n)
    ensures t.Live().sts.spec == Spec(c, n, n) && t.Live().Rev() == Revision(c, s.Live().era + 1)
    ensures t.Live().Rev() in t.cleared
  {
    var filled := Fills(policy, Knowingly, s, n);
    var frozen := TakesFreeze(policy, Knowingly, s, filled, p, c);
    t := TakesUp(policy, Knowingly, frozen);
    LeadsTrans(policy, Knowingly, s, frozen, t);
  }

  /** The first release puts c beside them. */
  lemma ReleasesBeside(policy: Policy, s: System, a: Revision, n: nat) returns (t: System)
    requires Ours(s) && s.viewAt == s.LastAt() && n >= 2 && Answerable(policy) && Healthy(s.pods, n)
    requires var spec := s.Live().sts.spec;
             spec == Spec(spec.template, n, n) && !policy.refused(spec.template.image, spec.template.image, false)
    requires s.pods[0].rev == a && s.Live().Rev() in s.cleared
    ensures Leads(policy, Knowingly, s, t) && {a, s.Live().Rev()} <= Revisions(t.pods)
  {
    var released := ReleasesNext(policy, Knowingly, s, map[]);
    t := LosesPod(policy, Knowingly, released, n - 1);
    LeadsTrans(policy, Knowingly, s, released, t);
    assert t.pods[0].rev in Revisions(t.pods) && t.pods[n - 1].rev in Revisions(t.pods);
  }

  lemma LatePodsMix(policy: Policy, a: Template, b: Template, c: Template, n: nat) returns (s: System, t: System)
    requires Launders(policy, a, b, c) && Answerable(policy) && n >= 2
    ensures Init(s) && s.Live().sts.spec == Spec(a, n, 0) && Leads(policy, Knowingly, s, t)
    ensures {Revision(a, 0), Revision(c, 2)} <= Revisions(t.pods) && !policy.compatible(a, c)
  {
    var m, p;
    s, m, p := ChecksNoPods(policy, a, b, c, n);
    var landed := LandsOnLatePods(policy, m, p, Revision(a, 0), c, n);
    LeadsTrans(policy, Knowingly, s, m, landed);
    t := ReleasesBeside(policy, landed, Revision(a, 0), n);
    LeadsTrans(policy, Knowingly, s, landed, t);
  }

  /** Under celld's rules, for every size validation allows: 0.5 on fleet durability, bucket durability, 0.6. */
  lemma CelldLatePodsMix(n: nat) returns (a: Template, c: Template, s: System, t: System)
    requires n >= 3
    ensures AcceptedImage(a.image) && AcceptedImage(c.image) && FleetHazard(a, c) == ReplicationStreams
    ensures Init(s) && s.Live().sts.spec == Spec(a, n, 0) && Leads(CelldPolicy(), Knowingly, s, t)
    ensures {Revision(a, 0), Revision(c, 2)} <= Revisions(t.pods)
  {
    var b;
    a, b, c := CelldLaunders();
    CelldAnswerable();
    s, t := LatePodsMix(CelldPolicy(), a, b, c, n);
  }
}

/**
  How far apart releases land. A settle deadline counts from the clock reading behind it, and a write may land
  later than that; so the ten seconds hold between readings, and between landings less what a write lags.
 */
module Spacing {
  import opened Prelude
  import opened Compatibility
  import opened Census
  import opened Rollout
  import opened Protocol
  import opened Reach
  import History
  import StaleRevision

  predicate Releases(step: Step) { step.Commit? && step.w.kind == Release }

  /** A run from a fleet just created in which template writes and releases land within the delay of their reading. */
  ghost predicate PromptRun(policy: Policy, delay: nat, run: seq<System>, steps: seq<Step>) {
    && Run(policy, run, steps) && Init(run[0]) && run[0].versions[0].stamp <= run[0].now
    && forall i :: 0 <= i < |steps| ==> Allows(Promptly(delay), run[i], steps[i])
  }

  /** A template write or release of such a run, and a later release. */
  ghost predicate LandingPair(policy: Policy, delay: nat, run: seq<System>, steps: seq<Step>, i: nat, j: nat) {
    PromptRun(policy, delay, run, steps) && i < j < |steps| && Stamps(steps[i]) && Releases(steps[j])
  }

  lemma StepGrows(policy: Policy, s: System, step: Step, t: System)
    requires s.Wf() && Next(policy, s, step, t)
    ensures s.now <= t.now && s.versions <= t.versions
  {
  }

  lemma {:induction false} RunGrows(policy: Policy, run: seq<System>, steps: seq<Step>, i: nat, j: nat)
    requires Run(policy, run, steps) && i <= j < |run|
    ensures run[i].now <= run[j].now && run[i].versions <= run[j].versions
  {
    if i == j {
    } else {
      RunGrows(policy, run, steps, i, j - 1);
      assert StepAt(policy, run, steps, j - 1);
      StepGrows(policy, run[j - 1], steps[j - 1], run[j]);
    }
  }

  /** The version a commit adds, as every later state of the run still has it. */
  lemma CommitRemains(policy: Policy, run: seq<System>, steps: seq<Step>, i: nat, k: nat)
    requires Run(policy, run, steps) && i < k < |run| && steps[i].Commit?
    ensures |run[i].versions| < |run[k].versions|
    ensures run[k].versions[|run[i].versions|] == Written(run[i].Live(), steps[i].w, steps[i].p.f.stampedAt)
    ensures steps[i].p in run[i].passes
  {
    assert StepAt(policy, run, steps, i);
    RunGrows(policy, run, steps, i + 1, k);
  }

  /** Two landings, the second a release, are never closer than the settle interval less the delay, nor out of order. */
  lemma LandingsAreSpaced(policy: Policy, delay: nat, run: seq<System>, steps: seq<Step>, i: nat, j: nat)
    requires LandingPair(policy, delay, run, steps, i, j)
    ensures run[j].now - run[i].now >= SETTLE - delay && run[j].now >= run[i].now
  {
    var a, b := |run[i].versions|, |run[j].versions|;
    CommitRemains(policy, run, steps, i, j + 1);
    CommitRemains(policy, run, steps, j, j + 1);
    RunGrows(policy, run, steps, i, j);
    assert a < b by {
      CommitRemains(policy, run, steps, i, j);
    }
    History.ReleasesAreSpaced(policy, run, steps, j + 1, a, b);
    History.RunKeeps(policy, run, steps, j);
    assert History.Sound(policy, run[j].versions[steps[j].p.at], steps[j].p, run[j].now);
    assert Allows(Promptly(delay), run[i], steps[i]);
  }

  // ----- the bound is tight -----

  /** In every such run, every release lands this long after each earlier write of this kind. */
  ghost predicate Apart(policy: Policy, delay: nat, gap: int, kind: Kind) {
    forall run: seq<System>, steps: seq<Step>, i: nat, j: nat :: LandingPair(policy, delay, run, steps, i, j) ==>
      steps[i].w.kind == kind ==> run[j].now - run[i].now >= gap
  }

  /** The closest two landings can come. */
  function Closest(delay: nat): int { if SETTLE > delay then SETTLE - delay else 0 }

  /** A run, a step, a run and a step, one after the other. */
  lemma InSequence(
    policy: Policy, mode: Mode, s: System, t: System, first: Step, u: System, v: System, second: Step, w: System)
    returns (run: seq<System>, steps: seq<Step>, i: nat, j: nat)
    requires Leads(policy, mode, s, t) && t.Wf() && Next(policy, t, first, u) && Allows(mode, t, first) && u.Wf()
    requires Leads(policy, mode, u, v) && v.Wf() && Next(policy, v, second, w) && Allows(mode, v, second) && w.Wf()
    ensures LeadsBy(policy, mode, s, w, run, steps) && i < j < |steps|
    ensures steps[i] == first && run[i] == t && steps[j] == second && run[j] == v
  {
    var run1, steps1 :| LeadsBy(policy, mode, s, t, run1, steps1);
    var run2, steps2 :| LeadsBy(policy, mode, u, v, run2, steps2);
    LeadsByStep(policy, mode, s, t, run1, steps1, first, u);
    LeadsByConcat(policy, mode, s, u, run1 + [u], steps1 + [first], run2, steps2, |steps2|);
    var run3, steps3 := run1 + [u] + run2[1..|steps2| + 1], steps1 + [first] + steps2[0..|steps2|];
    LeadsByStep(policy, mode, s, v, run3, steps3, second, w);
    run, steps, i, j := run3 + [w], steps3 + [second], |steps1|, |steps3|;
  }

  /** A pass whose release may land, though it read the clock some time ago. */
  predicate Releasing(s: System, p: Pass)
    requires s.Wf()
  {
    p in s.passes && p.at == s.LastAt() && Permits(p.app, p.desired, s.Live().sts, p.f, ReleaseOf(s, p))
  }

  function ReleaseOf(s: System, p: Pass): Write
    requires s.Wf()
  {
    var sts := s.Live().sts;
    Write(Release, if sts.spec.partition > 0 then ReleaseNext(sts, p.f.stampedAt) else sts)
  }

  lemma MayLandLater(s: System, p: Pass, hold: nat)
    requires Rested(s) && Examining(s, p) && FleetSettled(p.f)
    requires 0 < s.Live().sts.spec.partition <= s.Live().sts.spec.replicas
    ensures Releasing(s.(now := s.now + hold), p)
  {
  }

  /** A pass is ready to release as soon as the deadline lets it, and its write is held up for this long. */
  lemma HoldsUpRelease(policy: Policy, delay: nat, hold: nat, s: System, gate: map<nat, GateRead>)
    returns (t: System, p: Pass)
    requires Ours(s) && s.viewAt == s.LastAt() && Answerable(policy)
    requires var spec := s.Live().sts.spec;
             && !policy.refused(spec.template.image, spec.template.image, false)
             && Healthy(s.pods, spec.replicas) && 0 < spec.partition <= spec.replicas
             && AllUpdated(gate, spec.template, spec.partition, spec.replicas)
    ensures Leads(policy, Promptly(delay), s, t) && Ours(t) && t.pods == s.pods && Releasing(t, p)
    ensures t.Live().sts.spec == s.Live().sts.spec
    ensures p.f.stampedAt == Later(s.Live().sts.settleUntil, s.now) && t.now == p.f.stampedAt + hold
  {
    var ready;
    ready, p := PassesGates(policy, Promptly(delay), s, gate);
    MayLandLater(ready, p, hold);
    t := ready.(now := ready.now + hold);
    LeadsOn(policy, Promptly(delay), s, ready, Tick(t.now), t);
  }

  // ----- a template write and the first release -----

  lemma ComesUp(policy: Policy, delay: nat, a: Template) returns (s: System, t: System)
    ensures Init(s) && s.versions[0].stamp <= s.now && Leads(policy, Promptly(delay), s, t) && Ours(t)
    ensures t.Live().sts.spec == Spec(a, 1, 0) && Healthy(t.pods, 1) && t.pods[0].rev.template == a && t.now == 0
  {
    s := Created(a, 1);
    t := BringsUp(policy, Promptly(delay), s, 0);
  }

  /** A fleet of one comes up, and a pass checks a new template; its write is held up for the whole delay. */
  lemma HoldsUpFreeze(policy: Policy, delay: nat, a: Template, b: Template) returns (s: System, t: System, p: Pass)
    requires policy.compatible(a, b) && !policy.refused(a.image, b.image, false)
    ensures Init(s) && s.versions[0].stamp <= s.now && Leads(policy, Promptly(delay), s, t) && Ours(t)
    ensures t.Live().sts.spec == Spec(a, 1, 0) && Healthy(t.pods, 1)
    ensures p in t.passes && p.at == t.LastAt() && p.desired == b && p.app.strategy == Rolling
    ensures p.f.paused == Ok(true) && !p.f.refused && p.f.hazard == Ok(false) && p.f.stampedAt == 0 && t.now == delay
  {
    var up: System, checked: System;
    s, up := ComesUp(policy, delay, a);
    checked, p := ChecksFleet(policy, Promptly(delay), up, b);
    LeadsTrans(policy, Promptly(delay), s, up, checked);
    t := checked.(now := delay);
    LeadsOn(policy, Promptly(delay), s, checked, Tick(delay), t);
  }

  lemma FreezeLandsClose(policy: Policy, delay: nat, a: Template, b: Template)
    returns (run: seq<System>, steps: seq<Step>, i: nat, j: nat)
    requires a != b && policy.compatible(a, b) && !policy.refused(a.image, b.image, false)
    requires !policy.refused(b.image, b.image, false) && Answerable(policy)
    ensures LandingPair(policy, delay, run, steps, i, j) && steps[i].w.kind == Freeze
    ensures run[j].now - run[i].now == Closest(delay)
  {
    var mode := Promptly(delay);
    var s, t, p := HoldsUpFreeze(policy, delay, a, b);
    var frozen := TakesFreeze(policy, mode, s, t, p, b);
    var taken := TakesUp(policy, mode, frozen);
    var ready, q := HoldsUpRelease(policy, delay, 0, taken, map[]);
    LeadsTrans(policy, mode, frozen, taken, ready);
    var freeze := Commit(p, Write(Freeze, FreezeTemplate(t.Live().sts, b, 0)));
    var release := Commit(q, ReleaseOf(ready, q));
    run, steps, i, j := InSequence(policy, mode, s, t, freeze, frozen, ready, release, Committed(ready, q, release.w));
  }

  // ----- two releases -----

  /** A fleet of two comes up. */
  lemma TwoComeUp(policy: Policy, delay: nat, a: Template) returns (s: System, t: System)
    ensures Init(s) && s.versions[0].stamp <= s.now && Leads(policy, Promptly(delay), s, t) && Ours(t)
    ensures t.Live().sts.spec == Spec(a, 2, 0) && Healthy(t.pods, 2)
    ensures forall ord :: ord in t.pods ==> t.pods[ord].rev.template == a
  {
    s := Created(a, 2);
    var one := BringsUp(policy, Promptly(delay), s, 0);
    t := BringsUp(policy, Promptly(delay), one, 1);
    LeadsTrans(policy, Promptly(delay), s, one, t);
  }

  /** It is given a template, and the controller takes it up. */
  lemma FleetOfTwo(policy: Policy, delay: nat, a: Template, b: Template) returns (s: System, t: System)
    requires a != b && policy.compatible(a, b) && !policy.refused(a.image, b.image, false)
    ensures Init(s) && s.versions[0].stamp <= s.now && Leads(policy, Promptly(delay), s, t) && Ours(t)
    ensures t.viewAt == t.LastAt() && t.Live().sts.spec == Spec(b, 2, 2) && Healthy(t.pods, 2)
    ensures forall ord :: ord in t.pods ==> t.pods[ord].rev.template == a
  {
    var two: System;
    s, two := TwoComeUp(policy, delay, a);
    var installed := InstallsChecked(policy, Promptly(delay), two, b);
    LeadsTrans(policy, Promptly(delay), s, two, installed);
    t := TakesUp(policy, Promptly(delay), installed);
    LeadsTrans(policy, Promptly(delay), s, installed, t);
  }

  /** After a first release that landed late, the second is ready as soon as the deadline lets it. */
  lemma ReadiesSecond(policy: Policy, delay: nat, s: System, p: Pass, b: Template)
    returns (u: System, t: System, q: Pass)
    requires Ours(s) && s.Live().sts.spec == Spec(b, 2, 2) && Healthy(s.pods, 2) && s.pods[1].rev.template != b
    requires Answerable(policy) && !policy.refused(b.image, b.image, false)
    requires Releasing(s, p) && s.now == p.f.stampedAt + delay
    ensures u == Committed(s, p, ReleaseOf(s, p)) && Leads(policy, Promptly(delay), u, t) && t.Wf() && Releasing(t, q)
    ensures t.now == s.now + Closest(delay) && t.now == q.f.stampedAt
  {
    u := Committed(s, p, ReleaseOf(s, p));
    var taken := TakesUp(policy, Promptly(delay), u);
    var replaced := Replaces(policy, Promptly(delay), taken, 1);
    LeadsTrans(policy, Promptly(delay), u, taken, replaced);
    var gate := map[1 := Found(ItemOf("fleet", 1, replaced.pods[1]))];
    assert AllUpdated(gate, b, 1, 2);
    t, q := HoldsUpRelease(policy, delay, 0, replaced, gate);
    LeadsTrans(policy, Promptly(delay), u, replaced, t);
  }

  lemma ReleasesLandClose(policy: Policy, delay: nat, a: Template, b: Template)
    returns (run: seq<System>, steps: seq<Step>, i: nat, j: nat)
    requires a != b && policy.compatible(a, b) && !policy.refused(a.image, b.image, false)
    requires !policy.refused(b.image, b.image, false) && Answerable(policy)
    ensures LandingPair(policy, delay, run, steps, i, j) && Releases(steps[i])
    ensures run[j].now - run[i].now == Closest(delay)
  {
    var mode := Promptly(delay);
    var s, two := FleetOfTwo(policy, delay, a, b);
    var held, p := HoldsUpRelease(policy, delay, delay, two, map[]);
    LeadsTrans(policy, mode, s, two, held);
    var u, ready, q := ReadiesSecond(policy, delay, held, p, b);
    var first, second := Commit(p, ReleaseOf(held, p)), Commit(q, ReleaseOf(ready, q));
    run, steps, i, j := InSequence(policy, mode, s, held, first, u, ready, second, Committed(ready, q, second.w));
  }

  /**
    Exactly how close they land: every release is this long after every earlier template write, or every earlier
    release, in every run, if and only if it is no more than the settle interval less the delay.
   */
  lemma ApartIff(delay: nat, gap: int, kind: Kind)
    requires kind == Freeze || kind == Release
    ensures Apart(CelldPolicy(), delay, gap, kind) <==> gap <= Closest(delay)
  {
    if gap <= Closest(delay) {
      forall run: seq<System>, steps: seq<Step>, i: nat, j: nat | LandingPair(CelldPolicy(), delay, run, steps, i, j)
        ensures run[j].now - run[i].now >= gap
      {
        LandingsAreSpaced(CelldPolicy(), delay, run, steps, i, j);
      }
    } else {
      var a, b, c := StaleRevision.CelldLaunders();
      CelldAnswerable();
      StaleRevision.CelldRules(c, c);
      SameImageAllowed(c.image, false);
      if kind == Freeze {
        var run, steps, i, j := FreezeLandsClose(CelldPolicy(), delay, b, c);
      } else {
        var run, steps, i, j := ReleasesLandClose(CelldPolicy(), delay, b, c);
      }
    }
  }
}

/**
  What the live-fleet check leaves out. Below the partition the StatefulSet controller recreates pods from
  its current revision, which the check does not read. Here: a condition on each template write under
  which no run mixes incompatible pods, with no hypothesis on pods at all; and, for any fleet just
  given a template, exactly when a mixed fleet can come about.
 */
module CurrentRevision {
  import opened Prelude
  import opened Compatibility
  import opened Census
  import opened Rollout
  import opened Protocol
  import opened Reach
  import StopAll

  /** Any two of these revisions are compatible from the older to the newer. */
  ghost predicate Agree(policy: Policy, revisions: set<Revision>) {
    forall x, y :: x in revisions && y in revisions && x.era < y.era ==> policy.compatible(x.template, y.template)
  }

  /** Everything this version makes the controller create is in the set. */
  predicate CreatesWithin(v: Version, known: set<Revision>) {
    v.sts.spec.replicas > 0 ==> v.Rev() in known && (v.sts.spec.partition > 0 ==> v.current in known)
  }

  predicate HoldsWithin(v: Version, known: set<Revision>) { v.Rev() in known && v.current in known }

  ghost predicate Covered(versions: seq<Version>, viewAt: nat, pods: map<nat, Pod>, known: set<Revision>)
    requires versions != []
  {
    var live := versions[|versions| - 1];
    && Revisions(pods) <= known && live.Rev() in known
    && (forall j :: viewAt <= j < |versions| ==> CreatesWithin(versions[j], known))
    && (live.sts.spec.partition > 0 ==> forall j :: viewAt <= j < |versions| ==> HoldsWithin(versions[j], known))
  }

  /** Some agreeing set of revisions covers the fleet and all that may still be created. */
  ghost predicate Inv(policy: Policy, s: System)
    requires s.Wf()
  {
    exists known :: Agree(policy, known) && Covered(s.versions, s.viewAt, s.pods, known)
  }

  /** The condition: what runs, what may still be created, and the new template all agree. */
  ghost predicate WholeFleetChecked(policy: Policy, s: System, step: Step)
    requires s.Wf()
  {
    step.Commit? && step.w.kind == Freeze ==>
      Agree(policy, Potential(s.versions, s.viewAt, s.pods) + {Written(s.Live(), step.w, step.p.f.stampedAt).Rev()})
  }

  lemma AppendCovered(versions: seq<Version>, viewAt: nat, pods: map<nat, Pod>, known: set<Revision>, v: Version)
    requires versions != [] && viewAt < |versions| && Covered(versions, viewAt, pods, known)
    requires var live := versions[|versions| - 1];
             v.Rev() == live.Rev() && (v.sts.spec.partition > 0 ==> live.sts.spec.partition > 0 && v.current in known)
    ensures Covered(versions + [v], viewAt, pods, known)
  {
  }

  lemma OtherCommitsKeep(s: System, step: Step, t: System, known: set<Revision>)
    requires s.Wf() && Commits(s, step, t) && !InstallsTemplate(step) && Covered(s.versions, s.viewAt, s.pods, known)
    ensures t.Wf() && Covered(t.versions, t.viewAt, t.pods, known)
  {
    var v := Written(s.Live(), step.w, step.p.f.stampedAt);
    StopAll.OtherWritesKeepRevision(step.p.app, step.p.desired, s.Live(), step.p.f, step.w, step.p.f.stampedAt);
    assert HoldsWithin(s.versions[|s.versions| - 1], known) || s.Live().sts.spec.partition == 0;
    AppendCovered(s.versions, s.viewAt, s.pods, known, v);
  }

  lemma OthersKeep(s: System, step: Step, t: System, known: set<Revision>)
    requires s.Wf() && OthersWrite(s, step, t) && Covered(s.versions, s.viewAt, s.pods, known)
    ensures t.Wf() && Covered(t.versions, t.viewAt, t.pods, known)
  {
  }

  lemma PodMovesKeep(s: System, step: Step, t: System, known: set<Revision>)
    requires s.Wf() && PodMoves(s, step, t) && Covered(s.versions, s.viewAt, s.pods, known)
    ensures t.Wf() && Covered(t.versions, t.viewAt, t.pods, known)
  {
  }

  /** Between template writes, what covers the fleet goes on covering it. */
  lemma QuietStepsKeep(policy: Policy, s: System, step: Step, t: System, known: set<Revision>)
    requires s.Wf() && Next(policy, s, step, t) && !InstallsTemplate(step)
    requires Covered(s.versions, s.viewAt, s.pods, known)
    ensures t.Wf() && Covered(t.versions, t.viewAt, t.pods, known)
  {
    if PassMoves(policy, s, step, t) {
      PassMovesOnly(policy, s, step, t);
    } else if Commits(s, step, t) {
      OtherCommitsKeep(s, step, t, known);
    } else if PodMoves(s, step, t) {
      PodMovesKeep(s, step, t, known);
    } else if OthersWrite(s, step, t) {
      OthersKeep(s, step, t, known);
    }
  }

  /** After a template write, what was alive or could still be created, and the new template, cover the fleet. */
  lemma FreezeCovers(s: System, step: Step, t: System)
    requires s.Wf() && Commits(s, step, t) && step.w.kind == Freeze
    ensures t.Wf() && t.Live() == Written(s.Live(), step.w, step.p.f.stampedAt)
    ensures Covered(t.versions, t.viewAt, t.pods, Potential(s.versions, s.viewAt, s.pods) + {t.Live().Rev()})
  {
  }

  /** After a restart the new template alone covers it. */
  lemma RestartCovers(s: System, step: Step, t: System)
    requires s.Wf() && Commits(s, step, t) && step.w.kind == Restart && StopAll.Inv(s)
    ensures t.Wf() && Covered(t.versions, t.viewAt, t.pods, {t.Live().Rev()})
  {
    StopAll.RestartFindsNothing(s, step, t);
    assert t.versions == s.versions + [Written(s.Live(), step.w, step.p.f.stampedAt)];
  }

  lemma NextKeeps(policy: Policy, s: System, step: Step, t: System)
    requires s.Wf() && Next(policy, s, step, t) && Inv(policy, s) && StopAll.Inv(s)
    requires WholeFleetChecked(policy, s, step)
    ensures t.Wf() && Inv(policy, t)
  {
    if !InstallsTemplate(step) {
      var known :| Agree(policy, known) && Covered(s.versions, s.viewAt, s.pods, known);
      QuietStepsKeep(policy, s, step, t, known);
    } else if step.w.kind == Freeze {
      FreezeCovers(s, step, t);
    } else {
      RestartCovers(s, step, t);
    }
  }

  lemma {:induction false} RunKeeps(policy: Policy, run: seq<System>, steps: seq<Step>, i: nat)
    requires Run(policy, run, steps) && Init(run[0]) && i < |run|
    requires forall k :: 0 <= k < |steps| ==> WholeFleetChecked(policy, run[k], steps[k])
    ensures Inv(policy, run[i])
  {
    if i == 0 {
      var s := run[0];
      assert Agree(policy, {s.Live().Rev()}) && Covered(s.versions, s.viewAt, s.pods, {s.Live().Rev()});
    } else {
      RunKeeps(policy, run, steps, i - 1);
      StopAll.RunKeeps(policy, run, steps, i - 1);
      assert StepAt(policy, run, steps, i - 1);
      NextKeeps(policy, run[i - 1], steps[i - 1], run[i]);
    }
  }

  /** Were the whole fleet checked at each template write, no run would ever mix incompatible pods. */
  lemma WholeFleetCheckSuffices(policy: Policy, run: seq<System>, steps: seq<Step>, i: nat)
    requires Run(policy, run, steps) && Init(run[0]) && i < |run|
    requires forall k :: 0 <= k < |steps| ==> WholeFleetChecked(policy, run[k], steps[k])
    ensures Agree(policy, Revisions(run[i].pods))
  {
    RunKeeps(policy, run, steps, i);
  }

  // ----- exactly when a frozen fleet can become mixed -----

  /** Without any further template write, incompatible pods can come to run together. */
  ghost predicate MayMix(policy: Policy, s: System) {
    exists t :: Leads(policy, Quietly, s, t) && !Agree(policy, Revisions(t.pods))
  }

  /** A rollout over two or more ordinals that the controller has taken up but nothing has been released of. */
  predicate JustFrozen(s: System) {
    && Ours(s) && s.viewAt == s.LastAt()
    && var spec := s.Live().sts.spec; spec.partition == spec.replicas >= 2
  }

  /** Pods brought back from the current revision meet the first pod of the new template. */
  lemma OldMeetsNew(policy: Policy, s: System) returns (u: System)
    requires JustFrozen(s) && Answerable(policy)
    requires var image := s.Live().sts.spec.template.image; !policy.refused(image, image, false)
    ensures Leads(policy, Quietly, s, u) && {s.Live().current, s.Live().Rev()} <= Revisions(u.pods)
  {
    var n := s.Live().sts.spec.replicas;
    var empty := Empties(policy, Quietly, s);
    var full := Fills(policy, Quietly, empty, n);
    LeadsTrans(policy, Quietly, s, empty, full);
    var released := ReleasesNext(policy, Quietly, full, map[]);
    LeadsTrans(policy, Quietly, s, full, released);
    u := LosesPod(policy, Quietly, released, n - 1);
    LeadsTrans(policy, Quietly, s, released, u);
    assert u.pods[0].rev in Revisions(u.pods) && u.pods[n - 1].rev in Revisions(u.pods);
  }

  lemma {:induction false} QuietRunsKeep(
    policy: Policy, run: seq<System>, steps: seq<Step>, known: set<Revision>, i: nat)
    requires Run(policy, run, steps) && i < |run| && Covered(run[0].versions, run[0].viewAt, run[0].pods, known)
    requires forall k :: 0 <= k < |steps| ==> !InstallsTemplate(steps[k])
    ensures Covered(run[i].versions, run[i].viewAt, run[i].pods, known)
  {
    if i == 0 {
    } else {
      QuietRunsKeep(policy, run, steps, known, i - 1);
      assert StepAt(policy, run, steps, i - 1);
      QuietStepsKeep(policy, run[i - 1], steps[i - 1], run[i], known);
    }
  }

  lemma AgreeingNeverMixes(policy: Policy, s: System)
    requires JustFrozen(s) && Agree(policy, Revisions(s.pods) + {s.Live().Rev(), s.Live().current})
    ensures !MayMix(policy, s)
  {
    var known := Revisions(s.pods) + {s.Live().Rev(), s.Live().current};
    forall t | Leads(policy, Quietly, s, t) ensures Agree(policy, Revisions(t.pods)) {
      var run, steps :| LeadsBy(policy, Quietly, s, t, run, steps);
      assert Covered(s.versions, s.viewAt, s.pods, known);
      QuietRunsKeep(policy, run, steps, known, |steps|);
    }
  }

  /** A pod and the new template can be brought together: a further ordinal is asked for, and comes up with it. */
  lemma PodMeetsNew(policy: Policy, s: System, ord: nat) returns (u: System)
    requires JustFrozen(s) && ord in s.pods
    ensures Leads(policy, Quietly, s, u) && {s.pods[ord].rev, s.Live().Rev()} <= Revisions(u.pods)
  {
    LeadsHere(policy, Quietly, s);
    var next := if ord == s.Live().sts.spec.replicas then ord + 1 else s.Live().sts.spec.replicas;
    var scaled := WithVersion(s, Scaled(s.Live(), next + 1));
    LeadsOn(policy, Quietly, s, s, Rescaled(next + 1), scaled);
    var taken := TakesUp(policy, Quietly, scaled);
    LeadsTrans(policy, Quietly, s, scaled, taken);
    u := LosesPod(policy, Quietly, taken, next);
    LeadsTrans(policy, Quietly, s, taken, u);
    assert u.pods[ord].rev in Revisions(u.pods) && u.pods[next].rev in Revisions(u.pods);
  }

  /** A pod and the current revision can: another ordinal is lost, and comes back with it. */
  lemma PodMeetsOld(policy: Policy, s: System, ord: nat) returns (u: System)
    requires JustFrozen(s) && ord in s.pods
    ensures Leads(policy, Quietly, s, u) && {s.pods[ord].rev, s.Live().current} <= Revisions(u.pods)
  {
    var other := if ord == 0 then 1 else 0;
    u := LosesPod(policy, Quietly, s, other);
    assert u.pods[ord].rev in Revisions(u.pods) && u.pods[other].rev in Revisions(u.pods);
  }

  /** Any two revisions that run, are current or are new can be brought together. */
  lemma Meet(policy: Policy, s: System, x: Revision, y: Revision) returns (u: System)
    requires JustFrozen(s) && Answerable(policy)
    requires var image := s.Live().sts.spec.template.image; !policy.refused(image, image, false)
    requires x in Revisions(s.pods) + {s.Live().Rev(), s.Live().current}
    requires y in Revisions(s.pods) + {s.Live().Rev(), s.Live().current} && x != y
    ensures Leads(policy, Quietly, s, u) && {x, y} <= Revisions(u.pods)
  {
    if x in Revisions(s.pods) && y in Revisions(s.pods) {
      LeadsHere(policy, Quietly, s);
      u := s;
    } else if x in Revisions(s.pods) || y in Revisions(s.pods) {
      var pod, other := if x in Revisions(s.pods) then x else y, if x in Revisions(s.pods) then y else x;
      var ord :| ord in s.pods && s.pods[ord].rev == pod;
      if other == s.Live().current {
        u := PodMeetsOld(policy, s, ord);
      } else {
        u := PodMeetsNew(policy, s, ord);
      }
    } else {
      u := OldMeetsNew(policy, s);
    }
  }

  /**
    Exactly when a template write can lead to a mixed fleet, whatever pods are up, down or missing when it is taken up,
    and whatever was checked: a fleet of two or more can come to mix incompatible pods if and only if the live
    pods, the new template and the controller's current revision do not all agree.
   */
  lemma MixesIff(policy: Policy, s: System)
    requires JustFrozen(s) && Answerable(policy)
    requires var image := s.Live().sts.spec.template.image; !policy.refused(image, image, false)
    ensures MayMix(policy, s) <==> !Agree(policy, Revisions(s.pods) + {s.Live().Rev(), s.Live().current})
  {
    var known := Revisions(s.pods) + {s.Live().Rev(), s.Live().current};
    if Agree(policy, known) {
      AgreeingNeverMixes(policy, s);
    } else {
      var x, y :| x in known && y in known && x.era < y.era && !policy.compatible(x.template, y.template);
      var u := Meet(policy, s, x, y);
      assert !Agree(policy, Revisions(u.pods));
    }
  }
}

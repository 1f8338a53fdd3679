/**
  After the template write that follows a recreate. The restart finds no pod of what was drained, but the controller's
  current revision survives it, and the next template write makes the controller create from that again. Here: a
  run in which the drained template comes back beside a newer one; the condition on template writes under
  which it never does; and exactly when it can after the first of them.
 */
module DrainedReturn {
  import opened Prelude
  import opened GoText
  import opened Versions
  import opened ImageTags
  import opened Compatibility
  import opened Census
  import opened Rollout
  import opened Protocol
  import opened Reach
  import opened CurrentRevision
  import StopAll
  import StaleRevision

  predicate FromEra(revisions: set<Revision>, era: nat) { forall x :: x in revisions ==> x.era >= era }

  // ----- eras -----

  /** Eras never fall from version to version, and no version's current revision is newer than its template. */
  predicate ErasOrdered(versions: seq<Version>) {
    && (forall i, j :: 0 <= i <= j < |versions| ==> versions[i].era <= versions[j].era)
    && (forall j :: 0 <= j < |versions| ==> versions[j].current.era <= versions[j].era)
  }

  lemma AppendKeepsEras(versions: seq<Version>, v: Version)
    requires versions != [] && ErasOrdered(versions)
    requires versions[|versions| - 1].era <= v.era && v.current.era <= v.era
    ensures ErasOrdered(versions + [v])
  {
  }

  lemma NextKeepsEras(policy: Policy, s: System, step: Step, t: System)
    requires s.Wf() && Next(policy, s, step, t) && ErasOrdered(s.versions)
    ensures ErasOrdered(t.versions)
  {
    if PassMoves(policy, s, step, t) {
      PassMovesOnly(policy, s, step, t);
    } else if Commits(s, step, t) {
      AppendKeepsEras(s.versions, Written(s.Live(), step.w, step.p.f.stampedAt));
    } else if PodMoves(s, step, t) {
      PodMovesOnly(s, step, t);
    } else if OthersWrite(s, step, t) {
      assert s.versions[s.viewAt].era <= s.versions[|s.versions| - 1].era;
      AppendKeepsEras(s.versions, t.versions[|s.versions|]);
    }
  }

  lemma {:induction false} RunKeepsEras(policy: Policy, run: seq<System>, steps: seq<Step>, i: nat)
    requires Run(policy, run, steps) && Init(run[0]) && i < |run|
    ensures ErasOrdered(run[i].versions)
  {
    if i == 0 {
    } else {
      var k := i - 1;
      RunKeepsEras(policy, run, steps, k);
      assert StepAt(policy, run, steps, k);
      NextKeepsEras(policy, run[k], steps[k], run[k + 1]);
    }
  }

  // ----- the condition -----

  /** No version the controller may act on has a current revision from before this era. */
  predicate ForgetsBefore(versions: seq<Version>, viewAt: nat, era: nat) {
    forall j :: viewAt <= j < |versions| ==> versions[j].current.era >= era
  }

  /** The condition on a step: the controller has forgotten what was before, if this is a template write. */
  predicate WritesForgetful(s: System, step: Step, era: nat) {
    step.Commit? && step.w.kind == Freeze ==> ForgetsBefore(s.versions, s.viewAt, era)
  }

  /** All that runs or may still be created is of this era or later. */
  ghost predicate Since(s: System, era: nat)
    requires s.Wf()
  {
    exists known :: FromEra(known, era) && Covered(s.versions, s.viewAt, s.pods, known)
  }

  lemma PotentialFromEra(s: System, era: nat)
    requires s.Wf() && ErasOrdered(s.versions) && ForgetsBefore(s.versions, s.viewAt, era)
    requires FromEra(Revisions(s.pods), era)
    ensures FromEra(Potential(s.versions, s.viewAt, s.pods), era)
  {
    forall x | x in Potential(s.versions, s.viewAt, s.pods) ensures x.era >= era {
      if x !in Revisions(s.pods) {
        var j :| s.viewAt <= j < |s.versions| && (x == s.versions[j].Rev() || x == s.versions[j].current);
        assert s.versions[j].current.era >= era;
      }
    }
  }

  lemma FreezeKeepsSince(s: System, step: Step, t: System, era: nat)
    requires s.Wf() && Commits(s, step, t) && step.w.kind == Freeze && ErasOrdered(s.versions)
    requires Since(s, era) && ForgetsBefore(s.versions, s.viewAt, era)
    ensures t.Wf() && Since(t, era)
  {
    FreezeCovers(s, step, t);
    PotentialFromEra(s, era);
    assert s.Live().era >= era;
    assert FromEra(Potential(s.versions, s.viewAt, s.pods) + {t.Live().Rev()}, era);
  }

  lemma NextKeepsSince(policy: Policy, s: System, step: Step, t: System, era: nat)
    requires s.Wf() && Next(policy, s, step, t) && Since(s, era) && ErasOrdered(s.versions) && StopAll.Inv(s)
    requires WritesForgetful(s, step, era)
    ensures t.Wf() && Since(t, era)
  {
    var known :| FromEra(known, era) && Covered(s.versions, s.viewAt, s.pods, known);
    if !InstallsTemplate(step) {
      QuietStepsKeep(policy, s, step, t, known);
    } else if step.w.kind == Freeze {
      FreezeKeepsSince(s, step, t, era);
    } else {
      RestartCovers(s, step, t);
      assert FromEra({t.Live().Rev()}, era);
    }
  }

  lemma {:induction false} RunKeepsSince(policy: Policy, run: seq<System>, steps: seq<Step>, r: nat, era: nat, i: nat)
    requires Run(policy, run, steps) && Init(run[0]) && r <= i < |run| && Since(run[r], era)
    requires forall k :: r <= k < i ==> WritesForgetful(run[k], steps[k], era)
    ensures Since(run[i], era)
  {
    if i == r {
    } else {
      var k := i - 1;
      RunKeepsSince(policy, run, steps, r, era, k);
      RunKeepsEras(policy, run, steps, k);
      StopAll.RunKeeps(policy, run, steps, k);
      assert StepAt(policy, run, steps, k);
      NextKeepsSince(policy, run[k], steps[k], run[k + 1], era);
    }
  }

  lemma SinceRestart(policy: Policy, run: seq<System>, steps: seq<Step>, r: nat)
    requires Run(policy, run, steps) && Init(run[0]) && r < |steps| && steps[r].Commit? && steps[r].w.kind == Restart
    ensures Since(run[r + 1], run[r + 1].Live().era)
  {
    StopAll.RunKeeps(policy, run, steps, r);
    assert StepAt(policy, run, steps, r);
    RestartCovers(run[r], steps[r], run[r + 1]);
    assert FromEra({run[r + 1].Live().Rev()}, run[r + 1].Live().era);
  }

  /**
    What was drained stays gone: in every run in which, at each template write after a restart, the controller has
    forgotten everything from before that restart, no pod of a template from before it is ever alive again,
    whatever rollouts and recreates follow.
   */
  lemma DrainedStaysGone(policy: Policy, run: seq<System>, steps: seq<Step>, r: nat, i: nat, ord: nat)
    requires Run(policy, run, steps) && Init(run[0]) && r < i < |run|
    requires steps[r].Commit? && steps[r].w.kind == Restart
    requires forall k :: r < k < i ==> WritesForgetful(run[k], steps[k], run[r + 1].Live().era)
    requires ord in run[i].pods
    ensures run[i].pods[ord].rev.era >= run[r + 1].Live().era
  {
    SinceRestart(policy, run, steps, r);
    RunKeepsSince(policy, run, steps, r + 1, run[r + 1].Live().era, i);
    assert run[i].pods[ord].rev in Revisions(run[i].pods);
  }

  // ----- exactly when -----

  /** Without any further template write, a pod from before this era can come up. */
  ghost predicate MayReturn(policy: Policy, s: System, era: nat) {
    exists t :: Leads(policy, Quietly, s, t) && !FromEra(Revisions(t.pods), era)
  }

  /** Whatever current revision a version the controller may act on has, a frozen fleet can be given a pod of it. */
  lemma BringsBack(policy: Policy, s: System, j: nat) returns (t: System)
    requires s.Wf() && s.viewAt <= j < |s.versions|
    requires var spec := s.Live().sts.spec; spec.partition == spec.replicas >= 1
    ensures Leads(policy, Quietly, s, t) && s.versions[j].current in Revisions(t.pods)
  {
    LeadsHere(policy, Quietly, s);
    var viewed := s.(viewAt := j);
    LeadsOn(policy, Quietly, s, s, AdvanceView(j), viewed);
    var reported := WithVersion(viewed, Reported(viewed.Live(), viewed.View(), 0, 0, 0, false));
    LeadsOn(policy, Quietly, s, viewed, Report(0, 0, 0, false), reported);
    var taken := TakesUp(policy, Quietly, reported);
    LeadsTrans(policy, Quietly, s, reported, taken);
    t := LosesPod(policy, Quietly, taken, 0);
    LeadsTrans(policy, Quietly, s, taken, t);
    assert t.pods[0].rev in Revisions(t.pods);
  }

  /**
    A fleet just given a template, and free of pods from before an era, can get one back if and only if the controller
    remembers one.
   */
  lemma ReturnsIff(policy: Policy, s: System, era: nat)
    requires s.Wf() && ErasOrdered(s.versions) && FromEra(Revisions(s.pods), era)
    requires var spec := s.Live().sts.spec; spec.partition == spec.replicas >= 1
    ensures MayReturn(policy, s, era) <==> !ForgetsBefore(s.versions, s.viewAt, era)
  {
    if ForgetsBefore(s.versions, s.viewAt, era) {
      PotentialFromEra(s, era);
      var known := Potential(s.versions, s.viewAt, s.pods);
      forall t | Leads(policy, Quietly, s, t) ensures FromEra(Revisions(t.pods), era) {
        var run, steps :| LeadsBy(policy, Quietly, s, t, run, steps);
        QuietRunsKeep(policy, run, steps, known, |steps|);
      }
    } else {
      var j :| s.viewAt <= j < |s.versions| && s.versions[j].current.era < era;
      var t := BringsBack(policy, s, j);
      assert !FromEra(Revisions(t.pods), era);
    }
  }

  /**
    In every run, at the first template write after a restart: pods of templates from before the restart can come back
    after it if and only if, when it lands, some version the controller may act on still has a current revision
    from before.
   */
  lemma FirstWriteReturnsIff(policy: Policy, run: seq<System>, steps: seq<Step>, r: nat, m: nat)
    requires Run(policy, run, steps) && Init(run[0]) && r < m < |steps|
    requires steps[r].Commit? && steps[r].w.kind == Restart && steps[m].Commit? && steps[m].w.kind == Freeze
    requires forall k :: r < k < m ==> !(steps[k].Commit? && steps[k].w.kind == Freeze)
    requires run[m].Live().sts.spec.replicas >= 1
    ensures var era := run[r + 1].Live().era;
            MayReturn(policy, run[m + 1], era) <==> !ForgetsBefore(run[m].versions, run[m].viewAt, era)
  {
    var era := run[r + 1].Live().era;
    SinceRestart(policy, run, steps, r);
    RunKeepsSince(policy, run, steps, r + 1, era, m);
    RunKeepsEras(policy, run, steps, m + 1);
    assert StepAt(policy, run, steps, m);
    LandsAsFreeze(run[m], steps[m], run[m + 1], era);
    ReturnsIff(policy, run[m + 1], era);
  }

  lemma LandsAsFreeze(s: System, step: Step, t: System, era: nat)
    requires s.Wf() && Commits(s, step, t) && step.w.kind == Freeze && Since(s, era)
    ensures t.Wf() && t.pods == s.pods && FromEra(Revisions(t.pods), era)
    ensures t.Live().sts.spec.partition == t.Live().sts.spec.replicas == s.Live().sts.spec.replicas
    ensures ForgetsBefore(t.versions, t.viewAt, era) <==> ForgetsBefore(s.versions, s.viewAt, era)
  {
    AppendForgets(s.versions, s.viewAt, Written(s.Live(), step.w, step.p.f.stampedAt), era);
  }

  lemma AppendForgets(versions: seq<Version>, viewAt: nat, v: Version, era: nat)
    requires viewAt < |versions| && v.current == versions[|versions| - 1].current
    ensures ForgetsBefore(versions + [v], viewAt, era) <==> ForgetsBefore(versions, viewAt, era)
  {
    var all := versions + [v];
    assert all[|versions|] == v && forall j :: 0 <= j < |versions| ==> all[j] == versions[j];
    if ForgetsBefore(all, viewAt, era) {
      forall j | viewAt <= j < |versions| ensures versions[j].current.era >= era {
        assert all[j].current.era >= era;
      }
    }
  }

  // ----- and it does come back -----

  /** A fleet is recreated from a to b, and given c before its pods are up: they come up from a, and c beside them. */
  lemma DrainedComesBack(policy: Policy, a: Template, b: Template, c: Template, n: nat)
    returns (s: System, m: System, t: System)
    requires a != b && b != c && policy.compatible(b, c) && n >= 2 && Answerable(policy)
    requires !policy.refused(a.image, b.image, true) && !policy.refused(b.image, c.image, false)
    requires !policy.refused(c.image, c.image, false)
    ensures Init(s) && s.Live().sts.spec == Spec(a, n, 0) && Leads(policy, Freely, s, m) && Leads(policy, Freely, m, t)
    ensures m.Wf() && m.pods == map[] && m.Live().Rev() == Revision(b, 1)
    ensures {Revision(a, 0), Revision(c, 2)} <= Revisions(t.pods)
  {
    s := Created(a, n);
    m := Recreates(policy, s, b, n);
    var installed := InstallsChecked(policy, Freely, m, c);
    var taken := TakesUp(policy, Freely, installed);
    LeadsTrans(policy, Freely, m, installed, taken);
    t := OldMeetsNew(policy, taken);
    LeadsLoosely(policy, Quietly, Freely, taken, t);
    LeadsTrans(policy, Freely, m, taken, t);
  }

  /** A 0.3 app on bucket durability, its 0.4 successor, and that one with a new app version. */
  lemma BreakingTemplates() returns (a: Template, b: Template, c: Template)
    ensures AcceptedImage(a.image) && AcceptedImage(b.image) && b.image == c.image && a != b && b != c
    ensures RuntimeOf(a) == Runtime(Some(Minor(0, 3)), false)
    ensures RuntimeOf(b) == RuntimeOf(c) == Runtime(Some(Minor(0, 4)), false)
    ensures FleetHazard(a, b) == FleetHazard(a, c) == CrossedBoundary && FleetHazard(b, c) == Safe
    ensures RuntimeChangeRefusal(a.image, b.image, true) == Allowed
    ensures RuntimeChangeRefusal(b.image, c.image, false) == Allowed
  {
    var v03, v04 := ReleaseImage(0, 3), ReleaseImage(0, 4);
    ReleaseImageReads(0, 3);
    ReleaseImageReads(0, 4);
    var bucket := Some(BUCKET_DURABILITY);
    a, b, c := Template(v03, bucket, Some("1"), None, ""), Template(v04, bucket, Some("1"), None, ""),
      Template(v04, bucket, Some("2"), None, "");
    Crosses34();
    SameRuntimeCompatible(b, c);
    UpgradeAllowed(v03, v04, Minor(0, 3), Minor(0, 4), true);
    SameImageAllowed(v04, false);
  }

  lemma Crosses34()
    ensures AnyFlagged(Minor(0, 3), Minor(0, 4))
  {
    var b := BREAKING_BOUNDARIES[2];
    assert b in BREAKING_BOUNDARIES && Refuses(b, Upward) && Crosses(b, Upward, Minor(0, 3), Minor(0, 4));
    assert Flagged(b, Minor(0, 3), Minor(0, 4));
  }

  /** Under celld's rules, for every fleet of two or more: the mix Recreate was asked for to prevent. */
  lemma CelldDrainedComesBack(n: nat) returns (a: Template, b: Template, c: Template, s: System, m: System, t: System)
    requires n >= 2
    ensures AcceptedImage(a.image) && AcceptedImage(b.image) && b.image == c.image
    ensures FleetHazard(a, b) == FleetHazard(a, c) == CrossedBoundary && FleetHazard(b, c) == Safe
    ensures Init(s) && s.Live().sts.spec == Spec(a, n, 0)
    ensures Leads(CelldPolicy(), Freely, s, m) && Leads(CelldPolicy(), Freely, m, t)
    ensures m.Wf() && m.pods == map[] && m.Live().Rev() == Revision(b, 1)
    ensures {Revision(a, 0), Revision(c, 2)} <= Revisions(t.pods)
  {
    a, b, c := BreakingTemplates();
    CelldAnswerable();
    SameImageAllowed(c.image, false);
    StaleRevision.CelldRules(b, c);
    StaleRevision.CelldRules(c, c);
    RecreateRules(a, b);
    s, m, t := DrainedComesBack(CelldPolicy(), a, b, c, n);
  }

  lemma RecreateRules(a: Template, b: Template)
    ensures CelldPolicy().refused(a.image, b.image, true) == (RuntimeChangeRefusal(a.image, b.image, true) != Allowed)
  {
  }
}

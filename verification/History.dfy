/** What the stored versions of a StatefulSet look like one after another, in every run. */
module History {
  import opened Prelude
  import opened GoText
  import opened Versions
  import opened ImageTags
  import opened Compatibility
  import opened Census
  import opened Rollout
  import opened Protocol

  function ImageOf(v: Version): string { v.sts.spec.template.image }

  /** w was stored directly on v. */
  predicate Follows(policy: Policy, v: Version, w: Version) {
    match w.writer
    case Creation => false
    case Controller => w.sts == v.sts.(status := w.sts.status) && w.era == v.era && w.stamp == v.stamp
    case Scaling =>
      && w.sts == v.sts.(spec := v.sts.spec.(replicas := w.sts.spec.replicas), generation := w.sts.generation)
      && w.era == v.era && w.stamp == v.stamp
    case Operator(kind) =>
      && v.stamp <= w.stamp
      && OperatorFollows(policy, kind, v, w)
  }

  predicate OperatorFollows(policy: Policy, kind: Kind, v: Version, w: Version) {
    match kind
    case Freeze =>
      && !v.sts.recreating && !w.sts.recreating && w.era == v.era + 1
      && w.sts.spec.replicas == w.sts.spec.partition == v.sts.spec.replicas
      && w.sts.settleUntil == Some(w.stamp + SETTLE)
      && !policy.refused(ImageOf(v), ImageOf(w), false)
    case Restart =>
      && v.sts.spec.replicas == 0 && !w.sts.recreating && w.era == v.era + 1 && w.sts.spec.partition == 0
      && w.sts.settleUntil == v.sts.settleUntil
      && (exists recreate :: !policy.refused(ImageOf(v), ImageOf(w), recreate))
    case Release =>
      && !v.sts.recreating && !w.sts.recreating && w.era == v.era
      && w.sts.spec == v.sts.spec.(partition := w.sts.spec.partition)
      && w.sts.spec.partition == v.sts.spec.partition - 1
      && (v.sts.settleUntil.Some? ==> v.sts.settleUntil.value <= w.stamp)
      && w.sts.settleUntil == Some(w.stamp + SETTLE)
    case Clamp =>
      && !v.sts.recreating && !w.sts.recreating && w.era == v.era && w.sts.settleUntil == v.sts.settleUntil
      && w.sts.spec == v.sts.spec.(partition := v.sts.spec.replicas) && v.sts.spec.partition > v.sts.spec.replicas
    case Drain =>
      && w.sts.recreating && w.era == v.era && w.sts.settleUntil == v.sts.settleUntil
      && w.sts.spec == v.sts.spec.(replicas := 0)
    case Rescale =>
      && !v.sts.recreating && !w.sts.recreating && w.era == v.era && w.sts.settleUntil == v.sts.settleUntil
      && w.sts.spec == v.sts.spec.(replicas := w.sts.spec.replicas) && v.sts.spec.partition == 0
  }

  ghost predicate Chained(policy: Policy, versions: seq<Version>) {
    forall i {:trigger versions[i]} :: 0 <= i < |versions| - 1 ==> Follows(policy, versions[i], versions[i + 1])
  }

  /**
    What a pass carries from its start: the refusal verdict for its image, and clock readings that postdate what
    it read.
   */
  predicate Sound(policy: Policy, v: Version, p: Pass, now: int) {
    && p.desired.image == p.app.image
    && p.f.refused == policy.refused(ImageOf(v), p.app.image, p.app.strategy == Recreate)
    && v.stamp <= p.f.checkedAt <= p.f.stampedAt <= now
  }

  ghost predicate PassesSound(policy: Policy, versions: seq<Version>, passes: set<Pass>, now: int) {
    forall p :: p in passes ==> p.at < |versions| && Sound(policy, versions[p.at], p, now)
  }

  ghost predicate Inv(policy: Policy, s: System)
    requires s.Wf()
  {
    && Chained(policy, s.versions) && PassesSound(policy, s.versions, s.passes, s.now) && s.Live().stamp <= s.now
  }

  lemma WriteFollows(policy: Policy, v: Version, p: Pass, w: Write, now: int)
    requires Permits(p.app, p.desired, v.sts, p.f, w) && Sound(policy, v, p, now)
    ensures Follows(policy, v, Written(v, w, p.f.stampedAt))
  {
    if w.kind == Restart {
      assert !policy.refused(ImageOf(v), ImageOf(Written(v, w, p.f.stampedAt)), p.app.strategy == Recreate);
    }
  }

  lemma AppendKeepsChain(policy: Policy, versions: seq<Version>, v: Version)
    requires versions != [] && Chained(policy, versions) && Follows(policy, versions[|versions| - 1], v)
    ensures Chained(policy, versions + [v])
  {
  }

  lemma PassMovesKeep(policy: Policy, s: System, step: Step, t: System)
    requires s.Wf() && PassMoves(policy, s, step, t) && PassesSound(policy, s.versions, s.passes, s.now)
    requires s.Live().stamp <= s.now
    ensures PassesSound(policy, s.versions, t.passes, s.now)
  {
  }

  lemma OthersFollow(policy: Policy, s: System, step: Step, t: System)
    requires s.Wf() && OthersWrite(s, step, t)
    ensures t.versions == s.versions + [t.versions[|s.versions|]] && Follows(policy, s.Live(), t.versions[|s.versions|])
    ensures t.passes == s.passes && t.now == s.now
  {
  }

  lemma CommitKeeps(policy: Policy, s: System, step: Step, t: System)
    requires s.Wf() && Commits(s, step, t) && Inv(policy, s)
    ensures t.Wf() && Inv(policy, t)
  {
    var p := step.p;
    assert Sound(policy, s.versions[p.at], p, s.now);
    WriteFollows(policy, s.Live(), p, step.w, s.now);
    AppendKeepsChain(policy, s.versions, Written(s.Live(), step.w, p.f.stampedAt));
  }

  lemma OthersKeep(policy: Policy, s: System, step: Step, t: System)
    requires s.Wf() && OthersWrite(s, step, t) && Inv(policy, s)
    ensures t.Wf() && Inv(policy, t)
  {
    OthersFollow(policy, s, step, t);
    AppendKeepsChain(policy, s.versions, t.versions[|s.versions|]);
  }

  lemma AdvancesKeep(policy: Policy, s: System, step: Step, t: System)
    requires s.Wf() && Advances(s, step, t) && Inv(policy, s)
    ensures t.Wf() && Inv(policy, t)
  {
  }

  lemma NextKeeps(policy: Policy, s: System, step: Step, t: System)
    requires s.Wf() && Next(policy, s, step, t) && Inv(policy, s)
    ensures t.Wf() && Inv(policy, t)
  {
    if PassMoves(policy, s, step, t) {
      PassMovesOnly(policy, s, step, t);
      PassMovesKeep(policy, s, step, t);
    } else if Commits(s, step, t) {
      CommitKeeps(policy, s, step, t);
    } else if PodMoves(s, step, t) {
      PodMovesOnly(s, step, t);
    } else if OthersWrite(s, step, t) {
      OthersKeep(policy, s, step, t);
    } else {
      AdvancesKeep(policy, s, step, t);
    }
  }

  lemma {:induction false} RunKeeps(policy: Policy, run: seq<System>, steps: seq<Step>, i: nat)
    requires Run(policy, run, steps) && Init(run[0]) && run[0].versions[0].stamp <= run[0].now && i < |run|
    ensures Inv(policy, run[i])
  {
    if i == 0 {
    } else {
      RunKeeps(policy, run, steps, i - 1);
      assert StepAt(policy, run, steps, i - 1);
      NextKeeps(policy, run[i - 1], steps[i - 1], run[i]);
    }
  }

  // ----- settle spacing -----

  predicate Stamps(v: Version) { v.writer == Operator(Freeze) || v.writer == Operator(Release) }

  lemma {:induction false} DeadlineHolds(policy: Policy, versions: seq<Version>, j: nat, k: nat)
    requires Chained(policy, versions) && j <= k < |versions| && 0 < j && Stamps(versions[j])
    ensures versions[k].sts.settleUntil.Some? && versions[k].sts.settleUntil.value >= versions[j].stamp + SETTLE
    ensures versions[k].stamp >= versions[j].stamp
  {
    if k == j {
      assert Follows(policy, versions[j - 1], versions[j]);
    } else {
      DeadlineHolds(policy, versions, j, k - 1);
      assert Follows(policy, versions[k - 1], versions[k]);
    }
  }

  /**
    Settle spacing: in every run the clock reading of a release is at least ten seconds after that of
    every earlier release and template freeze, however many passes, restarts and conflicts lie between.
   */
  lemma ReleasesAreSpaced(policy: Policy, run: seq<System>, steps: seq<Step>, i: nat, j: nat, k: nat)
    requires Run(policy, run, steps) && Init(run[0]) && run[0].versions[0].stamp <= run[0].now && i < |run|
    requires 0 < j < k < |run[i].versions|
    requires Stamps(run[i].versions[j]) && run[i].versions[k].writer == Operator(Release)
    ensures run[i].versions[k].stamp >= run[i].versions[j].stamp + SETTLE
  {
    RunKeeps(policy, run, steps, i);
    var versions := run[i].versions;
    DeadlineHolds(policy, versions, j, k - 1);
    assert Follows(policy, versions[k - 1], versions[k]);
  }

  // ----- the recreate marker -----

  /**
    The marker: once a drain has set it, every later version carries it and the old template, until the
    one write that clears it, which is the restart that installs the new template.
   */
  lemma {:induction false} MarkerHolds(policy: Policy, versions: seq<Version>, j: nat, k: nat)
    requires Chained(policy, versions) && j <= k < |versions| && versions[j].sts.recreating
    requires forall m :: j < m <= k ==> versions[m].writer != Operator(Restart)
    ensures versions[k].sts.recreating && versions[k].Rev() == versions[j].Rev()
    ensures versions[k].sts.spec.partition == versions[j].sts.spec.partition
  {
    if j == k {
    } else {
      MarkerHolds(policy, versions, j, k - 1);
      assert Follows(policy, versions[k - 1], versions[k]);
    }
  }

  lemma MarkerHoldsInRuns(policy: Policy, run: seq<System>, steps: seq<Step>, i: nat, j: nat, k: nat)
    requires Run(policy, run, steps) && Init(run[0]) && run[0].versions[0].stamp <= run[0].now && i < |run|
    requires j <= k < |run[i].versions| && run[i].versions[j].sts.recreating
    requires forall m :: j < m <= k ==> run[i].versions[m].writer != Operator(Restart)
    ensures run[i].versions[k].sts.recreating && run[i].versions[k].Rev() == run[i].versions[j].Rev()
  {
    RunKeeps(policy, run, steps, i);
    MarkerHolds(policy, run[i].versions, j, k);
  }

  // ----- the version floor -----

  /** Every pass in flight and every stored version has a good image. */
  ghost predicate AllGood(good: string -> bool, versions: seq<Version>, passes: set<Pass>) {
    && (forall i :: 0 <= i < |versions| ==> good(ImageOf(versions[i])))
    && (forall p :: p in passes ==> good(p.desired.image))
  }

  /** The policy never lets a good image leave the floor. */
  ghost predicate Upholds(policy: Policy, floor: string -> bool, good: string -> bool) {
    forall from, to, recreate :: floor(from) && good(to) && !policy.refused(from, to, recreate) ==> floor(to)
  }

  lemma FloorStep(policy: Policy, floor: string -> bool, good: string -> bool, v: Version, w: Version)
    requires Upholds(policy, floor, good) && Follows(policy, v, w) && floor(ImageOf(v)) && good(ImageOf(w))
    ensures floor(ImageOf(w))
  {
  }

  lemma {:induction false} FloorHolds(
    policy: Policy, floor: string -> bool, good: string -> bool, versions: seq<Version>, j: nat, k: nat)
    requires Upholds(policy, floor, good) && Chained(policy, versions)
    requires j <= k < |versions| && floor(ImageOf(versions[j]))
    requires forall i :: j <= i <= k ==> good(ImageOf(versions[i]))
    ensures floor(ImageOf(versions[k]))
  {
    if j == k {
    } else {
      FloorHolds(policy, floor, good, versions, j, k - 1);
      assert Follows(policy, versions[k - 1], versions[k]);
      FloorStep(policy, floor, good, versions[k - 1], versions[k]);
    }
  }

  predicate GoodEdit(good: string -> bool, step: Step) { step.Begin? ==> good(step.app.image) }

  lemma PassMovesGood(policy: Policy, good: string -> bool, s: System, step: Step, t: System)
    requires s.Wf() && PassMoves(policy, s, step, t) && AllGood(good, s.versions, s.passes) && GoodEdit(good, step)
    ensures AllGood(good, s.versions, t.passes)
  {
  }

  lemma WrittenImage(app: App, desired: Template, v: Version, f: Findings, w: Write, stamp: int)
    requires Permits(app, desired, v.sts, f, w)
    ensures ImageOf(Written(v, w, stamp)) == ImageOf(v) || ImageOf(Written(v, w, stamp)) == desired.image
  {
  }

  lemma NextGood(policy: Policy, good: string -> bool, s: System, step: Step, t: System)
    requires s.Wf() && Next(policy, s, step, t) && AllGood(good, s.versions, s.passes) && GoodEdit(good, step)
    ensures AllGood(good, t.versions, t.passes)
  {
    if PassMoves(policy, s, step, t) {
      PassMovesOnly(policy, s, step, t);
      PassMovesGood(policy, good, s, step, t);
    } else if Commits(s, step, t) {
      WrittenImage(step.p.app, step.p.desired, s.Live(), step.p.f, step.w, step.p.f.stampedAt);
    } else if PodMoves(s, step, t) {
      PodMovesOnly(s, step, t);
    } else if OthersWrite(s, step, t) {
      assert ImageOf(t.versions[|s.versions|]) == ImageOf(s.Live());
    }
  }

  lemma {:induction false} RunGood(policy: Policy, good: string -> bool, run: seq<System>, steps: seq<Step>, i: nat)
    requires Run(policy, run, steps) && Init(run[0]) && i < |run| && good(ImageOf(run[0].versions[0]))
    requires forall k :: 0 <= k < |steps| ==> GoodEdit(good, steps[k])
    ensures AllGood(good, run[i].versions, run[i].passes)
  {
    if i == 0 {
    } else {
      RunGood(policy, good, run, steps, i - 1);
      assert StepAt(policy, run, steps, i - 1);
      NextGood(policy, good, run[i - 1], steps[i - 1], run[i]);
    }
  }

  lemma FloorInRuns(
    policy: Policy, floor: string -> bool, good: string -> bool,
    run: seq<System>, steps: seq<Step>, i: nat, j: nat, k: nat)
    requires Upholds(policy, floor, good)
    requires Run(policy, run, steps) && Init(run[0]) && run[0].versions[0].stamp <= run[0].now && i < |run|
    requires good(ImageOf(run[0].versions[0])) && forall m :: 0 <= m < |steps| ==> GoodEdit(good, steps[m])
    requires j <= k < |run[i].versions| && floor(ImageOf(run[i].versions[j]))
    ensures floor(ImageOf(run[i].versions[k]))
  {
    RunKeeps(policy, run, steps, i);
    RunGood(policy, good, run, steps, i);
    FloorHolds(policy, floor, good, run[i].versions, j, k);
  }

  /** The image's tag names a version. */
  predicate Parses(image: string) { MinorOf(image).Some? }

  /** The image's tag names a version at or above v0.3. */
  predicate AtFloor(image: string) { MinorOf(image).Some? && !Before(MinorOf(image).value, V03) }

  lemma CelldUpholdsFloor()
    ensures Upholds(CelldPolicy(), AtFloor, Parses)
  {
  }

  /**
    Version floor: for the life of a StatefulSet whose first image parses, once the template is at or
    above v0.3 no sequence of specs with parsed images, Rolling or Recreate, stores one below it
    again. Validated images parse exactly when their numbers fit Go's int.
   */
  lemma FloorNeverBroken(run: seq<System>, steps: seq<Step>, i: nat, j: nat, k: nat)
    requires Run(CelldPolicy(), run, steps) && Init(run[0]) && run[0].versions[0].stamp <= run[0].now && i < |run|
    requires Parses(ImageOf(run[0].versions[0]))
    requires forall m :: 0 <= m < |steps| && steps[m].Begin? ==> Parses(steps[m].app.image)
    requires j <= k < |run[i].versions| && AtFloor(ImageOf(run[i].versions[j]))
    ensures AtFloor(ImageOf(run[i].versions[k]))
  {
    CelldUpholdsFloor();
    forall m | 0 <= m < |steps| ensures GoodEdit(Parses, steps[m]) {
    }
    FloorInRuns(CelldPolicy(), AtFloor, Parses, run, steps, i, j, k);
  }

  /**
    Why the numbers must fit, and exactly when the floor gives way: a stepping stone leads from an image at the floor to
    one below it, with no refusal under Recreate, if and only if it does not parse.
   */
  lemma SteppingStoneIff(from: string, stone: string, to: string)
    requires AtFloor(from) && Parses(to) && !AtFloor(to)
    ensures RuntimeChangeRefusal(from, to, true) == Downgrade
    ensures RuntimeChangeRefusal(from, stone, true) == Allowed && RuntimeChangeRefusal(stone, to, true) == Allowed <==>
            !Parses(stone)
  {
  }

  /** Validation lets such stones through: a release number beyond Go's int is accepted and does not parse. */
  lemma OversizedVersionIsStone() returns (image: string)
    ensures AcceptedImage(image) && !Parses(image)
  {
    var big: nat := MAX_INT64 + 1;
    image := ReleaseImage(big, 0);
    var p := ReleaseImageAccepted(big, 0);
    ReadersAgree(image, p);
  }
}

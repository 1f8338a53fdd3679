/**
  Rolling disrupts one pod at a time. The controller may replace every pod its copy of the object lets it,
  all at once and however stale the copy; what serializes the replacements is the operator's
  partition, its two gates and the compare-and-swap.
 */
module OneDisruption {
  import opened Prelude
  import opened Compatibility
  import opened Census
  import opened Rollout
  import opened Protocol
  import opened Reach

  predicate Down(pods: map<nat, Pod>, ord: nat) { ord !in pods || !pods[ord].ready || pods[ord].deleting }

  /** Down, or about to be: some version the controller may act on wants the pod replaced. */
  ghost predicate Exposed(versions: seq<Version>, viewAt: nat, pods: map<nat, Pod>, ord: nat) {
    Down(pods, ord) || exists j :: viewAt <= j < |versions| && Outdated(versions[j], ord, pods[ord])
  }

  ghost predicate OneExposed(versions: seq<Version>, viewAt: nat, pods: map<nat, Pod>, n: nat) {
    forall a: nat, b: nat :: a < n && b < n ==>
      Exposed(versions, viewAt, pods, a) && Exposed(versions, viewAt, pods, b) ==> a == b
  }

  ghost predicate NoneExposed(versions: seq<Version>, viewAt: nat, pods: map<nat, Pod>, n: nat) {
    forall ord: nat :: ord < n ==> !Exposed(versions, viewAt, pods, ord)
  }

  /**
    What gate 1's cache may show: the pods since the last template write if that template was new, else since
    the last write.
   */
  function Trusted(s: System, novel: bool): set<(nat, Pod)> { if novel then s.seen else s.recent }

  /**
    The hypotheses on a run: pods fall only to replacement, the scale is fixed, and gate 1's cache lags no more
    than that.
   */
  ghost predicate Replacing(s: System, step: Step, novel: bool) {
    Undisturbed(s, step) && (step.ReadGate? ==> CachedSince(Trusted(s, novel), step.p.app.fleet, step.gate))
  }

  /** Whether the live template was in use nowhere when it was installed. */
  predicate NovelAfter(s: System, step: Step, novel: bool) {
    if step.Commit? && step.w.kind == Freeze then Unused(s, step.w.sts.spec.template) else novel
  }

  /** A census succeeds only over a full fleet. */
  ghost predicate Sound(policy: Policy) {
    forall items: seq<PodItem>, answers: seq<Response>, fleet: string, n: nat ::
      policy.observe(items, answers, fleet, n).Some? ==> FullFleet(items, fleet, n)
  }

  lemma CelldSound()
    ensures Sound(CelldPolicy())
  {
  }

  // ----- the invariant -----

  predicate FixedScale(versions: seq<Version>, viewAt: nat, pods: map<nat, Pod>, n: nat) {
    && (forall j :: viewAt <= j < |versions| ==>
        versions[j].sts.spec.replicas == n && versions[j].sts.spec.partition <= n)
    && forall ord :: ord in pods ==> ord < n
  }

  /** The update revision reported for the live generation is the live template. */
  predicate TruthfulStatus(sts: Sts) {
    sts.status.observedGeneration == sts.generation && sts.status.updateRevision.Some? ==>
      sts.status.updateRevision.value == sts.spec.template
  }

  /** Once something is released, the controller can only be acting on this rollout. */
  predicate OneRollout(versions: seq<Version>, viewAt: nat, n: nat)
    requires versions != []
  {
    var live := versions[|versions| - 1].sts.spec;
    live.partition < n ==>
      forall j :: viewAt <= j < |versions| ==>
        versions[j].sts.spec.template == live.template && versions[j].sts.spec.partition >= live.partition
  }

  predicate Runs(pods: map<nat, Pod>, ord: nat, template: Template) {
    ord in pods && !pods[ord].deleting && pods[ord].rev.template == template
  }

  predicate AllRun(pods: map<nat, Pod>, spec: Spec, lo: nat) {
    forall ord: nat :: lo <= ord < spec.replicas ==> Runs(pods, ord, spec.template)
  }

  /** After a release only the partition's ordinal may be down, and the higher ones run the new template. */
  ghost predicate OnlyPartition(versions: seq<Version>, viewAt: nat, pods: map<nat, Pod>, n: nat)
    requires versions != []
  {
    var live := versions[|versions| - 1].sts.spec;
    live.partition < n ==>
      && (forall ord: nat :: ord < n && Exposed(versions, viewAt, pods, ord) ==> ord == live.partition)
      && AllRun(pods, live, live.partition + 1)
  }

  /** A released pod seen with the live template since the last operator write still runs it. */
  ghost predicate SeenHolds(spec: Spec, pods: map<nat, Pod>, recent: set<(nat, Pod)>) {
    forall ord: nat, pod: Pod :: (ord, pod) in recent && spec.partition <= ord < spec.replicas ==>
      pod.rev.template == spec.template ==>
      Runs(pods, ord, spec.template)
  }

  /**
    While the live template is one that was new when installed: what the controller may act on turns to it once and for
    all; until it does, nothing has it; and a pod seen with it since then still runs it.
   */
  ghost predicate NovelHolds(
    versions: seq<Version>, viewAt: nat, pods: map<nat, Pod>, seen: set<(nat, Pod)>, novel: bool, n: nat)
    requires viewAt < |versions|
  {
    var template := versions[|versions| - 1].sts.spec.template;
    novel ==>
      && (forall j, k :: viewAt <= j <= k < |versions| && versions[j].sts.spec.template == template ==>
            versions[k].sts.spec.template == template)
      && (versions[viewAt].sts.spec.template != template ==>
            && (forall ord: nat, pod: Pod :: (ord, pod) in seen ==> pod.rev.template != template)
            && (forall j :: viewAt <= j < |versions| ==> versions[j].current.template != template))
      && (forall ord: nat, pod: Pod :: (ord, pod) in seen && ord < n && pod.rev.template == template ==>
            Runs(pods, ord, template))
  }

  predicate Current(sts: Sts) { sts.status.observedGeneration == sts.generation && sts.status.updateRevision.Some? }

  /** What a pass over the live version has established, if the controller had caught up with it. */
  ghost predicate PassHolds(versions: seq<Version>, viewAt: nat, pods: map<nat, Pod>, n: nat, p: Pass)
    requires versions != []
  {
    var live := versions[|versions| - 1].sts;
    p.at == |versions| - 1 && Current(live) && p.f.gate == Passed ==>
      && AllRun(pods, live.spec, live.spec.partition)
      && (p.f.sample.Some? ==> NoneExposed(versions, viewAt, pods, n))
  }

  ghost predicate PassesHold(versions: seq<Version>, viewAt: nat, pods: map<nat, Pod>, n: nat, passes: set<Pass>)
    requires versions != []
  {
    forall p :: p in passes ==> PassHolds(versions, viewAt, pods, n, p) && (p.f.listed.None? ==> p.f.sample.None?)
  }

  ghost predicate Inv(s: System, n: nat, novel: bool)
    requires s.Wf()
  {
    && Ordered(s.versions, s.viewAt) && FixedScale(s.versions, s.viewAt, s.pods, n)
    && TruthfulStatus(s.Live().sts) && OneRollout(s.versions, s.viewAt, n)
    && OneExposed(s.versions, s.viewAt, s.pods, n) && OnlyPartition(s.versions, s.viewAt, s.pods, n)
    && SeenHolds(s.Live().sts.spec, s.pods, s.recent) && Shown(s.pods) <= s.recent
    && NovelHolds(s.versions, s.viewAt, s.pods, s.seen, novel, n) && Shown(s.pods) <= s.seen
    && PassesHold(s.versions, s.viewAt, s.pods, n, s.passes)
  }

  // ----- pods -----

  /** Nothing that happens to pods exposes another one. */
  lemma PodMovesExposeNothing(s: System, step: Step, t: System, n: nat, ord: nat)
    requires s.Wf() && PodMoves(s, step, t) && Undisturbed(s, step) && FixedScale(s.versions, s.viewAt, s.pods, n)
    requires Exposed(t.versions, t.viewAt, t.pods, ord)
    ensures Exposed(s.versions, s.viewAt, s.pods, ord)
  {
  }

  /** A pod that no pending version wants replaced keeps running its template. */
  lemma PodMovesKeepRunning(s: System, step: Step, t: System, n: nat, ord: nat, template: Template)
    requires s.Wf() && PodMoves(s, step, t) && Undisturbed(s, step) && FixedScale(s.versions, s.viewAt, s.pods, n)
    requires Runs(s.pods, ord, template) && s.View().sts.spec.template == template
    ensures Runs(t.pods, ord, template)
  {
  }

  /** The pods from `lo` on keep running the live template, if the controller acts on nothing else. */
  lemma PodMovesKeepAll(s: System, step: Step, t: System, n: nat, spec: Spec, lo: nat)
    requires s.Wf() && PodMoves(s, step, t) && Undisturbed(s, step) && FixedScale(s.versions, s.viewAt, s.pods, n)
    requires AllRun(s.pods, spec, lo) && s.View().sts.spec.template == spec.template
    ensures AllRun(t.pods, spec, lo)
  {
    forall ord: nat | lo <= ord < spec.replicas ensures Runs(t.pods, ord, spec.template) {
      PodMovesKeepRunning(s, step, t, n, ord, spec.template);
    }
  }

  lemma PodMovesKeepExposure(s: System, step: Step, t: System, n: nat, novel: bool)
    requires s.Wf() && PodMoves(s, step, t) && Replacing(s, step, novel) && Inv(s, n, novel)
    ensures t.Wf() && OneExposed(t.versions, t.viewAt, t.pods, n) && OnlyPartition(t.versions, t.viewAt, t.pods, n)
    ensures NoneExposed(s.versions, s.viewAt, s.pods, n) ==> NoneExposed(t.versions, t.viewAt, t.pods, n)
  {
    PodMovesOnly(s, step, t);
    forall ord: nat | ord < n && Exposed(t.versions, t.viewAt, t.pods, ord)
      ensures Exposed(s.versions, s.viewAt, s.pods, ord)
    {
      PodMovesExposeNothing(s, step, t, n, ord);
    }
    var spec := s.Live().sts.spec;
    if spec.partition < n {
      PodMovesKeepAll(s, step, t, n, spec, spec.partition + 1);
    }
  }

  lemma PodMovesKeepSeen(s: System, step: Step, t: System, n: nat, novel: bool)
    requires s.Wf() && PodMoves(s, step, t) && Replacing(s, step, novel) && Inv(s, n, novel)
    ensures t.Wf() && SeenHolds(s.Live().sts.spec, t.pods, t.recent) && Shown(t.pods) <= t.recent
  {
    PodMovesOnly(s, step, t);
    var spec := s.Live().sts.spec;
    forall ord: nat, pod: Pod | (ord, pod) in t.recent && spec.partition <= ord < spec.replicas
        && pod.rev.template == spec.template
      ensures Runs(t.pods, ord, spec.template)
    {
      if (ord, pod) in s.recent {
        PodMovesKeepRunning(s, step, t, n, ord, spec.template);
      } else if ord in s.pods {
        assert (ord, s.pods[ord]) in Shown(s.pods);
      }
    }
  }

  lemma PodMovesKeepNovel(s: System, step: Step, t: System, n: nat, novel: bool)
    requires s.Wf() && PodMoves(s, step, t) && Replacing(s, step, novel) && Inv(s, n, novel)
    ensures t.Wf() && NovelHolds(t.versions, t.viewAt, t.pods, t.seen, novel, n) && Shown(t.pods) <= t.seen
  {
    PodMovesOnly(s, step, t);
    var template := s.Live().sts.spec.template;
    if novel {
      forall ord: nat, pod: Pod | (ord, pod) in t.seen && pod.rev.template == template
        ensures s.View().sts.spec.template == template && (ord < n ==> Runs(t.pods, ord, template))
      {
        if (ord, pod) in s.seen {
          if ord < n {
            PodMovesKeepRunning(s, step, t, n, ord, template);
          }
        } else if ord in s.pods {
          assert (ord, s.pods[ord]) in Shown(s.pods);
        } else {
          assert s.versions[s.viewAt] == s.View();
        }
      }
    }
  }

  lemma PodMovesKeepPasses(s: System, step: Step, t: System, n: nat, novel: bool)
    requires s.Wf() && PodMoves(s, step, t) && Replacing(s, step, novel) && Inv(s, n, novel)
    ensures t.Wf() && PassesHold(t.versions, t.viewAt, t.pods, n, t.passes)
  {
    PodMovesKeepExposure(s, step, t, n, novel);
    PodMovesOnly(s, step, t);
    var live := s.Live().sts;
    forall p | p in t.passes
      ensures PassHolds(t.versions, t.viewAt, t.pods, n, p) && (p.f.listed.None? ==> p.f.sample.None?)
    {
      assert PassHolds(s.versions, s.viewAt, s.pods, n, p);
      if p.at == s.LastAt() && Current(live) && p.f.gate == Passed {
        ObservedMeansCurrent(s.versions, s.viewAt, s.viewAt);
        PodMovesKeepAll(s, step, t, n, live.spec, live.spec.partition);
      }
    }
  }

  lemma PodMovesKeep(s: System, step: Step, t: System, n: nat, novel: bool)
    requires s.Wf() && PodMoves(s, step, t) && Replacing(s, step, novel) && Inv(s, n, novel)
    ensures t.Wf() && Inv(t, n, novel)
  {
    PodMovesOnly(s, step, t);
    PodMovesKeepExposure(s, step, t, n, novel);
    PodMovesKeepSeen(s, step, t, n, novel);
    PodMovesKeepNovel(s, step, t, n, novel);
    PodMovesKeepPasses(s, step, t, n, novel);
    assert FixedScale(t.versions, t.viewAt, t.pods, n);
  }

  // ----- writes -----

  lemma ObservedBounded(versions: seq<Version>, viewAt: nat)
    requires viewAt < |versions| && Ordered(versions, viewAt)
    ensures var live := versions[|versions| - 1].sts; live.status.observedGeneration <= live.generation
  {
  }

  /** A write moves the generation past what was reported, or leaves the template alone. */
  lemma WriteKeepsTruth(live: Sts, written: Sts)
    requires live.status.observedGeneration <= live.generation && TruthfulStatus(live) && written.status == live.status
    ensures TruthfulStatus(Stored(live, written))
  {
  }

  lemma CommitKeepsTruth(s: System, step: Step, t: System)
    requires s.Wf() && Commits(s, step, t) && Ordered(s.versions, s.viewAt) && TruthfulStatus(s.Live().sts)
    ensures t.Wf() && TruthfulStatus(t.Live().sts)
  {
    ObservedBounded(s.versions, s.viewAt);
    WritesKeepStatus(step.p.app, step.p.desired, s.Live().sts, step.p.f, step.w);
    WriteKeepsTruth(s.Live().sts, step.w.sts);
  }

  /**
    A version with the live template, and a current revision from the live version or the controller's copy,
    keeps it so.
   */
  lemma AppendKeepsNovel(
    versions: seq<Version>, viewAt: nat, pods: map<nat, Pod>, seen: set<(nat, Pod)>, novel: bool, n: nat, v: Version)
    requires viewAt < |versions| && NovelHolds(versions, viewAt, pods, seen, novel, n)
    requires v.sts.spec.template == versions[|versions| - 1].sts.spec.template
    requires v.current in {versions[|versions| - 1].current, versions[viewAt].current, versions[viewAt].Rev()}
    ensures NovelHolds(versions + [v], viewAt, pods, seen, novel, n)
  {
    var all := versions + [v];
    assert all[|all| - 1] == v && forall j :: 0 <= j < |versions| ==> all[j] == versions[j];
  }

  /** A template in use nowhere starts out so. */
  lemma FreezeKeepsNovel(s: System, step: Step, t: System, n: nat)
    requires s.Wf() && Commits(s, step, t) && step.w.kind == Freeze
    ensures t.Wf() && NovelHolds(t.versions, t.viewAt, t.pods, t.seen, Unused(s, step.w.sts.spec.template), n)
  {
    var v := Written(s.Live(), step.w, step.p.f.stampedAt);
    assert t.versions == s.versions + [v] && t.seen == Shown(s.pods);
    if Unused(s, step.w.sts.spec.template) {
      var template := v.sts.spec.template;
      forall j | s.viewAt <= j < |s.versions|
        ensures t.versions[j].sts.spec.template != template && t.versions[j].current.template != template
      {
        assert s.versions[j].Rev() in Potential(s.versions, s.viewAt, s.pods);
        assert s.versions[j].current in Potential(s.versions, s.viewAt, s.pods);
      }
      forall ord: nat, pod: Pod | (ord, pod) in t.seen ensures pod.rev.template != template {
        assert s.pods[ord].rev in Revisions(s.pods);
      }
      assert v.current == s.versions[|s.versions| - 1].current;
    }
  }

  /** Freezing exposes nothing: the new version lets no pod be replaced. */
  lemma FreezeExposesNothing(s: System, step: Step, t: System, n: nat, ord: nat)
    requires s.Wf() && Commits(s, step, t) && step.w.kind == Freeze && s.Live().sts.spec.replicas == n && ord < n
    requires Exposed(t.versions, t.viewAt, t.pods, ord)
    ensures Exposed(s.versions, s.viewAt, s.pods, ord)
  {
    if !Down(s.pods, ord) {
      var j :| t.viewAt <= j < |t.versions| && Outdated(t.versions[j], ord, t.pods[ord]);
      assert t.versions[j] == s.versions[j];
    }
  }

  lemma FreezeKeepsExposure(s: System, step: Step, t: System, n: nat)
    requires s.Wf() && Commits(s, step, t) && step.w.kind == Freeze && s.Live().sts.spec.replicas == n
    requires OneExposed(s.versions, s.viewAt, s.pods, n)
    ensures t.Wf() && OneExposed(t.versions, t.viewAt, t.pods, n) && OnlyPartition(t.versions, t.viewAt, t.pods, n)
    ensures NoneExposed(s.versions, s.viewAt, s.pods, n) ==> NoneExposed(t.versions, t.viewAt, t.pods, n)
  {
    forall ord: nat | ord < n && Exposed(t.versions, t.viewAt, t.pods, ord)
      ensures Exposed(s.versions, s.viewAt, s.pods, ord)
    {
      FreezeExposesNothing(s, step, t, n, ord);
    }
  }

  /** A version that releases nothing holds up everything that is said of released pods and of passes over it. */
  lemma FrozenVersionHolds(
    versions: seq<Version>, viewAt: nat, pods: map<nat, Pod>, passes: set<Pass>, n: nat, v: Version)
    requires viewAt < |versions| && FixedScale(versions, viewAt, pods, n)
    requires v.sts.spec.replicas == v.sts.spec.partition == n
    requires forall p :: p in passes ==> p.at < |versions| && (p.f.listed.None? ==> p.f.sample.None?)
    ensures FixedScale(versions + [v], viewAt, pods, n) && OneRollout(versions + [v], viewAt, n)
    ensures SeenHolds(v.sts.spec, pods, Shown(pods)) && PassesHold(versions + [v], viewAt, pods, n, passes)
  {
    var all := versions + [v];
    assert all[|all| - 1] == v && forall j :: 0 <= j < |versions| ==> all[j] == versions[j];
  }

  lemma FreezeKeepsFrame(s: System, step: Step, t: System, n: nat)
    requires s.Wf() && Commits(s, step, t) && step.w.kind == Freeze
    requires FixedScale(s.versions, s.viewAt, s.pods, n)
    requires forall p :: p in s.passes ==> p.at < |s.versions| && (p.f.listed.None? ==> p.f.sample.None?)
    ensures t.Wf() && FixedScale(t.versions, t.viewAt, t.pods, n) && OneRollout(t.versions, t.viewAt, n)
    ensures SeenHolds(t.Live().sts.spec, t.pods, t.recent) && Shown(t.pods) <= t.recent && Shown(t.pods) <= t.seen
    ensures PassesHold(t.versions, t.viewAt, t.pods, n, t.passes)
  {
    var v := Written(s.Live(), step.w, step.p.f.stampedAt);
    assert s.versions[|s.versions| - 1].sts.spec.replicas == n;
    FrozenVersionHolds(s.versions, s.viewAt, s.pods, t.passes, n, v);
  }

  lemma FreezeKeeps(s: System, step: Step, t: System, n: nat, novel: bool)
    requires s.Wf() && Commits(s, step, t) && step.w.kind == Freeze && Inv(s, n, novel)
    ensures t.Wf() && Inv(t, n, NovelAfter(s, step, novel))
  {
    assert s.versions[|s.versions| - 1].sts.spec.replicas == n;
    CommitKeepsOrder(s, step, t);
    CommitKeepsTruth(s, step, t);
    FreezeKeepsNovel(s, step, t, n);
    FreezeKeepsExposure(s, step, t, n);
    FreezeKeepsFrame(s, step, t, n);
  }

  /** Releasing exposes one ordinal, and finds none exposed. */
  lemma ReleaseExposesOne(s: System, step: Step, t: System, n: nat, novel: bool, ord: nat)
    requires s.Wf() && Commits(s, step, t) && step.w.kind == Release && Inv(s, n, novel) && ord < n
    requires Exposed(t.versions, t.viewAt, t.pods, ord)
    ensures ord == t.Live().sts.spec.partition
  {
    var v := Written(s.Live(), step.w, step.p.f.stampedAt);
    assert t.versions == s.versions + [v] && t.pods == s.pods;
    assert PassHolds(s.versions, s.viewAt, s.pods, n, step.p);
    assert !Exposed(s.versions, s.viewAt, s.pods, ord);
    var j :| t.viewAt <= j < |t.versions| && Outdated(t.versions[j], ord, t.pods[ord]);
    assert j == |s.versions| && !Runs(s.pods, ord, v.sts.spec.template);
  }

  lemma ReleaseKeepsRollout(s: System, step: Step, t: System, n: nat, novel: bool)
    requires s.Wf() && Commits(s, step, t) && step.w.kind == Release && Inv(s, n, novel)
    ensures t.Wf() && OneRollout(t.versions, t.viewAt, n) && FixedScale(t.versions, t.viewAt, t.pods, n)
    ensures SeenHolds(t.Live().sts.spec, t.pods, t.recent) && Shown(t.pods) <= t.recent
  {
    var v := Written(s.Live(), step.w, step.p.f.stampedAt);
    assert t.versions == s.versions + [v] && t.pods == s.pods && t.recent == Shown(s.pods);
    forall j | t.viewAt <= j < |t.versions|
      ensures t.versions[j].sts.spec == if j < |s.versions| then s.Live().sts.spec else v.sts.spec
    {
      if j < |s.versions| { ObservedMeansCurrent(s.versions, s.viewAt, j); }
    }
    assert PassHolds(s.versions, s.viewAt, s.pods, n, step.p);
    forall ord: nat, pod: Pod | (ord, pod) in t.recent && ord < n && pod.rev.template == v.sts.spec.template
      ensures Runs(t.pods, ord, v.sts.spec.template)
    {
      assert !Exposed(s.versions, s.viewAt, s.pods, ord);
    }
  }

  lemma ReleaseKeeps(s: System, step: Step, t: System, n: nat, novel: bool)
    requires s.Wf() && Commits(s, step, t) && step.w.kind == Release && Inv(s, n, novel)
    ensures t.Wf() && Inv(t, n, novel)
  {
    CommitKeepsOrder(s, step, t);
    ReleaseKeepsRollout(s, step, t, n, novel);
    var v := Written(s.Live(), step.w, step.p.f.stampedAt);
    assert t.versions == s.versions + [v];
    CommitKeepsTruth(s, step, t);
    AppendKeepsNovel(s.versions, s.viewAt, s.pods, s.seen, novel, n, v);
    forall ord: nat | ord < n && Exposed(t.versions, t.viewAt, t.pods, ord) ensures ord == v.sts.spec.partition {
      ReleaseExposesOne(s, step, t, n, novel, ord);
    }
    assert PassHolds(s.versions, s.viewAt, s.pods, n, step.p);
  }

  /** A version with the live spec exposes nothing new. */
  lemma SameSpecExposesNothing(versions: seq<Version>, viewAt: nat, pods: map<nat, Pod>, v: Version, ord: nat)
    requires viewAt < |versions| && v.sts.spec == versions[|versions| - 1].sts.spec
    requires Exposed(versions + [v], viewAt, pods, ord)
    ensures Exposed(versions, viewAt, pods, ord)
  {
    var all, last := versions + [v], |versions| - 1;
    if !Down(pods, ord) {
      var j :| viewAt <= j < |all| && Outdated(all[j], ord, pods[ord]);
      var k := if j == |versions| then last else j;
      assert Outdated(versions[k], ord, pods[ord]);
    }
  }

  /** So all that is said of exposure stays, and nothing that is said of rollouts or passes is touched. */
  lemma SameSpecHolds(versions: seq<Version>, viewAt: nat, pods: map<nat, Pod>, n: nat, v: Version)
    requires viewAt < |versions| && v.sts.spec == versions[|versions| - 1].sts.spec
    requires FixedScale(versions, viewAt, pods, n) && OneRollout(versions, viewAt, n)
    requires OneExposed(versions, viewAt, pods, n) && OnlyPartition(versions, viewAt, pods, n)
    ensures FixedScale(versions + [v], viewAt, pods, n) && OneRollout(versions + [v], viewAt, n)
    ensures OneExposed(versions + [v], viewAt, pods, n) && OnlyPartition(versions + [v], viewAt, pods, n)
    ensures NoneExposed(versions, viewAt, pods, n) ==> NoneExposed(versions + [v], viewAt, pods, n)
  {
    forall ord: nat | ord < n && Exposed(versions + [v], viewAt, pods, ord)
      ensures Exposed(versions, viewAt, pods, ord)
    {
      SameSpecExposesNothing(versions, viewAt, pods, v, ord);
    }
  }

  lemma ReportAppends(s: System, step: Step, t: System) returns (v: Version)
    requires s.Wf() && OthersWrite(s, step, t) && !step.Rescaled?
    ensures t == s.(versions := s.versions + [v]) && v.sts.spec == s.Live().sts.spec
    ensures v.current in {s.Live().current, s.View().current, s.View().Rev()}
    ensures v.sts.generation == s.Live().sts.generation && v.sts.status.observedGeneration == s.View().sts.generation
    ensures v.sts.status.updateRevision == Some(s.View().sts.spec.template)
  {
    v := t.versions[|s.versions|];
  }

  lemma ReportKeeps(s: System, step: Step, t: System, n: nat, novel: bool)
    requires s.Wf() && OthersWrite(s, step, t) && Replacing(s, step, novel) && Inv(s, n, novel)
    ensures t.Wf() && Inv(t, n, novel)
    ensures NoneExposed(s.versions, s.viewAt, s.pods, n) ==> NoneExposed(t.versions, t.viewAt, t.pods, n)
  {
    OthersKeepOrder(s, step, t);
    var v := ReportAppends(s, step, t);
    AppendKeepsNovel(s.versions, s.viewAt, s.pods, s.seen, novel, n, v);
    SameSpecHolds(s.versions, s.viewAt, s.pods, n, v);
    assert TruthfulStatus(v.sts) by {
      assert s.versions[s.viewAt].sts.generation <= s.versions[|s.versions| - 1].sts.generation;
    }
    assert PassesHold(t.versions, t.viewAt, t.pods, n, t.passes);
  }

  lemma AdvancesExposeNothing(s: System, step: Step, t: System, ord: nat)
    requires s.Wf() && Advances(s, step, t) && Exposed(t.versions, t.viewAt, t.pods, ord)
    ensures Exposed(s.versions, s.viewAt, s.pods, ord)
  {
  }

  lemma AdvancesKeepExposure(s: System, step: Step, t: System, n: nat)
    requires s.Wf() && Advances(s, step, t) && OneExposed(s.versions, s.viewAt, s.pods, n)
    requires OnlyPartition(s.versions, s.viewAt, s.pods, n)
    ensures t.Wf() && OneExposed(t.versions, t.viewAt, t.pods, n) && OnlyPartition(t.versions, t.viewAt, t.pods, n)
    ensures NoneExposed(s.versions, s.viewAt, s.pods, n) ==> NoneExposed(t.versions, t.viewAt, t.pods, n)
  {
    forall ord: nat | ord < n && Exposed(t.versions, t.viewAt, t.pods, ord)
      ensures Exposed(s.versions, s.viewAt, s.pods, ord)
    {
      AdvancesExposeNothing(s, step, t, ord);
    }
  }

  lemma AdvancesKeepNovel(s: System, step: Step, t: System, n: nat, novel: bool)
    requires s.Wf() && Advances(s, step, t) && NovelHolds(s.versions, s.viewAt, s.pods, s.seen, novel, n)
    ensures t.Wf() && NovelHolds(t.versions, t.viewAt, t.pods, t.seen, novel, n)
  {
  }

  lemma AdvancesKeepRollout(s: System, step: Step, t: System, n: nat)
    requires s.Wf() && Advances(s, step, t) && FixedScale(s.versions, s.viewAt, s.pods, n)
    requires OneRollout(s.versions, s.viewAt, n)
    ensures t.Wf() && FixedScale(t.versions, t.viewAt, t.pods, n) && OneRollout(t.versions, t.viewAt, n)
  {
  }

  lemma AdvancesKeepPasses(s: System, step: Step, t: System, n: nat)
    requires s.Wf() && Advances(s, step, t) && PassesHold(s.versions, s.viewAt, s.pods, n, s.passes)
    ensures t.Wf() && PassesHold(t.versions, t.viewAt, t.pods, n, t.passes)
  {
    forall ord: nat | ord < n && Exposed(t.versions, t.viewAt, t.pods, ord)
      ensures Exposed(s.versions, s.viewAt, s.pods, ord)
    {
      AdvancesExposeNothing(s, step, t, ord);
    }
    forall p | p in t.passes ensures PassHolds(t.versions, t.viewAt, t.pods, n, p) {
      assert PassHolds(s.versions, s.viewAt, s.pods, n, p);
    }
  }

  lemma AdvancesKeep(s: System, step: Step, t: System, n: nat, novel: bool)
    requires s.Wf() && Advances(s, step, t) && Inv(s, n, novel)
    ensures t.Wf() && Inv(t, n, novel)
  {
    AdvancesKeepOrder(s, step, t);
    AdvancesKeepExposure(s, step, t, n);
    AdvancesKeepNovel(s, step, t, n, novel);
    AdvancesKeepPasses(s, step, t, n);
    AdvancesKeepRollout(s, step, t, n);
  }

  // ----- passes -----

  /** An uncached listing that passes the census shows a healthy fleet. */
  lemma CensusFindsHealthy(items: seq<PodItem>, fleet: string, pods: map<nat, Pod>, n: nat, ord: nat)
    requires Lists(items, fleet, pods) && FullFleet(items, fleet, n) && ord < n
    ensures !Down(pods, ord)
  {
    var ords: seq<nat> :| ListsAs(items, ords, fleet, pods);
    assert PodName(fleet, ord) in Names(items);
    var i :| 0 <= i < |items| && Names(items)[i] == PodName(fleet, ord);
    assert Shows(items[i], fleet, ords[i], pods[ords[i]]) && Census.PodReady(items[i]);
    PodNameInjective(fleet, ord, ords[i]);
  }

  /** With every released pod on the live template and none down, and the controller caught up, nothing is exposed. */
  lemma HealthyMeansNoneExposed(versions: seq<Version>, viewAt: nat, pods: map<nat, Pod>, n: nat)
    requires viewAt < |versions| && Ordered(versions, viewAt) && FixedScale(versions, viewAt, pods, n)
    requires Current(versions[|versions| - 1].sts)
    requires var spec := versions[|versions| - 1].sts.spec; AllRun(pods, spec, spec.partition)
    requires forall ord: nat :: ord < n ==> !Down(pods, ord)
    ensures NoneExposed(versions, viewAt, pods, n)
  {
    forall ord: nat | ord < n ensures !Exposed(versions, viewAt, pods, ord) {
      assert !Down(pods, ord);
      forall j | viewAt <= j < |versions| ensures !Outdated(versions[j], ord, pods[ord]) {
        ObservedMeansCurrent(versions, viewAt, j);
        var spec := versions[|versions| - 1].sts.spec;
        assert ord >= spec.partition ==> Runs(pods, ord, spec.template);
      }
    }
  }

  /** Gate 1 passing means the released pods run the live template. */
  lemma GateMeansRunning(s: System, n: nat, novel: bool, fleet: string, gate: map<nat, GateRead>)
    requires s.Wf() && Inv(s, n, novel) && Current(s.Live().sts)
    requires CachedSince(Trusted(s, novel), fleet, gate) && GateOf(s.Live().sts, gate) == Passed
    ensures AllRun(s.pods, s.Live().sts.spec, s.Live().sts.spec.partition)
  {
    var sts := s.Live().sts;
    forall ord: nat | sts.spec.partition <= ord < sts.spec.replicas ensures Runs(s.pods, ord, sts.spec.template) {
      assert Updated(GateReadOf(gate, ord), sts.spec.template);
      var pod :| (ord, pod) in Trusted(s, novel) && Shows(gate[ord].pod, fleet, ord, pod);
    }
  }

  lemma GateReadHolds(s: System, step: Step, n: nat, novel: bool)
    requires s.Wf() && Inv(s, n, novel) && step.ReadGate? && step.p in s.passes && step.p.f.listed.None?
    requires Replacing(s, step, novel)
    ensures PassHolds(s.versions, s.viewAt, s.pods, n, AfterGate(s.versions[step.p.at], step.p, step.gate))
  {
    var live := s.Live().sts;
    if step.p.at == s.LastAt() && Current(live) && GateOf(live, step.gate) == Passed {
      GateMeansRunning(s, n, novel, step.p.app.fleet, step.gate);
    }
  }

  lemma FleetReadHolds(policy: Policy, s: System, step: Step, n: nat, novel: bool)
    requires s.Wf() && Inv(s, n, novel) && Sound(policy) && step.ReadFleet? && step.p in s.passes
    requires Lists(step.items, step.p.app.fleet, s.pods)
    ensures PassHolds(s.versions, s.viewAt, s.pods, n,
              AfterFleet(policy, s.versions[step.p.at], step.p, step.items, step.answers))
  {
    var p, live := step.p, s.Live().sts;
    var q := AfterFleet(policy, s.versions[p.at], p, step.items, step.answers);
    assert PassHolds(s.versions, s.viewAt, s.pods, n, p);
    if p.at == s.LastAt() && Current(live) && p.f.gate == Passed && q.f.sample.Some? {
      forall ord: nat | ord < n ensures !Down(s.pods, ord) {
        CensusFindsHealthy(step.items, p.app.fleet, s.pods, n, ord);
      }
      HealthyMeansNoneExposed(s.versions, s.viewAt, s.pods, n);
    }
  }

  lemma PassMovesHold(policy: Policy, s: System, step: Step, t: System, n: nat, novel: bool)
    requires s.Wf() && PassMoves(policy, s, step, t) && Replacing(s, step, novel) && Inv(s, n, novel) && Sound(policy)
    ensures PassesHold(s.versions, s.viewAt, s.pods, n, t.passes)
  {
    forall q | q in t.passes
      ensures PassHolds(s.versions, s.viewAt, s.pods, n, q) && (q.f.listed.None? ==> q.f.sample.None?)
    {
      if q !in s.passes && !step.Begin? {
        assert PassHolds(s.versions, s.viewAt, s.pods, n, step.p);
        if step.ReadGate? {
          GateReadHolds(s, step, n, novel);
        } else if step.ReadFleet? {
          FleetReadHolds(policy, s, step, n, novel);
        }
      }
    }
  }

  lemma PassMovesKeep(policy: Policy, s: System, step: Step, t: System, n: nat, novel: bool)
    requires s.Wf() && PassMoves(policy, s, step, t) && Replacing(s, step, novel) && Inv(s, n, novel) && Sound(policy)
    ensures t.Wf() && Inv(t, n, novel)
  {
    PassMovesOnly(policy, s, step, t);
    PassMovesHold(policy, s, step, t, n, novel);
  }

  // ----- runs -----

  lemma NextKeeps(policy: Policy, s: System, step: Step, t: System, n: nat, novel: bool)
    requires s.Wf() && Next(policy, s, step, t) && Replacing(s, step, novel) && Inv(s, n, novel) && Sound(policy)
    ensures t.Wf() && Inv(t, n, NovelAfter(s, step, novel))
  {
    if PassMoves(policy, s, step, t) {
      PassMovesKeep(policy, s, step, t, n, novel);
    } else if Commits(s, step, t) {
      if step.w.kind == Freeze {
        FreezeKeeps(s, step, t, n, novel);
      } else {
        ReleaseKeeps(s, step, t, n, novel);
      }
    } else if PodMoves(s, step, t) {
      PodMovesKeep(s, step, t, n, novel);
    } else if OthersWrite(s, step, t) {
      ReportKeeps(s, step, t, n, novel);
    } else {
      AdvancesKeep(s, step, t, n, novel);
    }
  }

  /** A fleet of n at rest: every pod up, none to be replaced, no pass in flight. */
  ghost predicate AtRest(s: System, n: nat) {
    && s.Wf() && Ordered(s.versions, s.viewAt) && TruthfulStatus(s.Live().sts)
    && (forall j :: s.viewAt <= j < |s.versions| ==> s.versions[j].sts.spec == s.Live().sts.spec)
    && s.Live().sts.spec.replicas == n && s.Live().sts.spec.partition <= n
    && Healthy(s.pods, n) && AllRun(s.pods, s.Live().sts.spec, s.Live().sts.spec.partition)
    && s.passes == {} && s.recent == s.seen == Shown(s.pods)
  }

  lemma RestHolds(s: System, n: nat, novel: bool)
    requires AtRest(s, n)
    ensures Inv(s, n, novel) && NoneExposed(s.versions, s.viewAt, s.pods, n)
  {
    var spec := s.Live().sts.spec;
    forall ord: nat | ord < n ensures !Exposed(s.versions, s.viewAt, s.pods, ord) {
      assert ord >= spec.partition ==> Runs(s.pods, ord, spec.template);
    }
  }

  /**
    Whether each state's live template was in use nowhere when installed; of a fleet at rest it may be said
    either way.
   */
  predicate NovelAt(run: seq<System>, steps: seq<Step>, novel: seq<bool>, k: nat)
    requires k < |steps| && |run| == |novel| == |steps| + 1
  {
    novel[k + 1] == NovelAfter(run[k], steps[k], novel[k])
  }

  /** A run from rest under the hypotheses. */
  ghost predicate ReplacingRun(policy: Policy, run: seq<System>, steps: seq<Step>, novel: seq<bool>, n: nat) {
    && Run(policy, run, steps) && Sound(policy) && AtRest(run[0], n) && |novel| == |run|
    && (forall k :: 0 <= k < |steps| ==> NovelAt(run, steps, novel, k))
    && (forall k :: 0 <= k < |steps| ==> Replacing(run[k], steps[k], novel[k]))
  }

  lemma StepKeeps(policy: Policy, run: seq<System>, steps: seq<Step>, novel: seq<bool>, n: nat, k: nat)
    requires ReplacingRun(policy, run, steps, novel, n) && k < |steps| && Inv(run[k], n, novel[k])
    ensures Inv(run[k + 1], n, novel[k + 1])
  {
    assert StepAt(policy, run, steps, k) && NovelAt(run, steps, novel, k);
    NextKeeps(policy, run[k], steps[k], run[k + 1], n, novel[k]);
  }

  lemma {:induction false} RunKeeps(
    policy: Policy, run: seq<System>, steps: seq<Step>, novel: seq<bool>, n: nat, i: nat)
    requires ReplacingRun(policy, run, steps, novel, n) && i < |run|
    ensures Inv(run[i], n, novel[i])
  {
    if i == 0 {
      RestHolds(run[0], n, novel[0]);
    } else {
      var k := i - 1;
      RunKeeps(policy, run, steps, novel, n, k);
      StepKeeps(policy, run, steps, novel, n, k);
    }
  }

  /**
    One disruption at a time. From rest, over any number of stacked rollouts, at most one pod is ever down;
    once a rollout has released anything, only the partition's ordinal can be, and every
    higher ordinal runs the new template.
   */
  lemma OneDownAtATime(policy: Policy, run: seq<System>, steps: seq<Step>, novel: seq<bool>, n: nat, i: nat)
    requires ReplacingRun(policy, run, steps, novel, n) && i < |run|
    ensures forall a: nat, b: nat :: a < n && b < n && Down(run[i].pods, a) && Down(run[i].pods, b) ==> a == b
    ensures var live := run[i].Live().sts.spec;
            live.partition < n ==>
              && (forall ord: nat :: ord < n && Down(run[i].pods, ord) ==> ord == live.partition)
              && (forall ord: nat :: live.partition < ord < n ==> Runs(run[i].pods, ord, live.template))
  {
    RunKeeps(policy, run, steps, novel, n, i);
    var s := run[i];
    forall ord: nat | ord < n && Down(s.pods, ord) ensures Exposed(s.versions, s.viewAt, s.pods, ord) {
    }
  }

  /** And so for the operator, whose gate lets a release through only when every ordinal's pod is listed and ready. */
  lemma CelldOneDownAtATime(run: seq<System>, steps: seq<Step>, novel: seq<bool>, n: nat, i: nat)
    requires Run(CelldPolicy(), run, steps) && AtRest(run[0], n) && |novel| == |run| && i < |run|
    requires forall k :: 0 <= k < |steps| ==> NovelAt(run, steps, novel, k)
    requires forall k :: 0 <= k < |steps| ==> Replacing(run[k], steps[k], novel[k])
    ensures forall a: nat, b: nat :: a < n && b < n && Down(run[i].pods, a) && Down(run[i].pods, b) ==> a == b
    ensures var live := run[i].Live().sts.spec;
            live.partition < n ==>
              && (forall ord: nat :: ord < n && Down(run[i].pods, ord) ==> ord == live.partition)
              && (forall ord: nat :: live.partition < ord < n ==> Runs(run[i].pods, ord, live.template))
  {
    CelldSound();
    OneDownAtATime(CelldPolicy(), run, steps, novel, n, i);
  }

  /** After a release, the only pod the controller can take down is the partition's. */
  lemma OnlyPartitionReplaced(policy: Policy, run: seq<System>, steps: seq<Step>, novel: seq<bool>, n: nat, i: nat)
    requires ReplacingRun(policy, run, steps, novel, n) && i < |steps| && steps[i].DeletePod?
    requires PodMoves(run[i], steps[i], run[i + 1])
    requires run[i].Live().sts.spec.partition < n
    ensures steps[i].ord == run[i].Live().sts.spec.partition
  {
    RunKeeps(policy, run, steps, novel, n, i);
    var s, ord := run[i], steps[i].ord;
    assert Outdated(s.versions[s.viewAt], ord, s.pods[ord]);
    assert Exposed(s.versions, s.viewAt, s.pods, ord);
  }

  lemma QuietStep(policy: Policy, s: System, step: Step, t: System, n: nat, novel: bool)
    requires s.Wf() && Next(policy, s, step, t) && Replacing(s, step, novel) && Inv(s, n, novel)
    requires NoneExposed(s.versions, s.viewAt, s.pods, n) && !(step.Commit? && step.w.kind == Release)
    ensures t.Wf() && NoneExposed(t.versions, t.viewAt, t.pods, n)
  {
    if PassMoves(policy, s, step, t) {
      PassMovesOnly(policy, s, step, t);
    } else if Commits(s, step, t) {
      FreezeKeepsExposure(s, step, t, n);
    } else if PodMoves(s, step, t) {
      PodMovesKeepExposure(s, step, t, n, novel);
    } else if OthersWrite(s, step, t) {
      ReportKeeps(s, step, t, n, novel);
    } else {
      AdvancesKeepExposure(s, step, t, n);
    }
  }

  /** Nothing moves before the first release, however many templates are written. */
  lemma {:induction false} NothingDownBeforeRelease(
    policy: Policy, run: seq<System>, steps: seq<Step>, novel: seq<bool>, n: nat, i: nat)
    requires ReplacingRun(policy, run, steps, novel, n) && i < |run|
    requires forall k :: 0 <= k < i ==> !(steps[k].Commit? && steps[k].w.kind == Release)
    ensures NoneExposed(run[i].versions, run[i].viewAt, run[i].pods, n)
  {
    if i == 0 {
      RestHolds(run[0], n, true);
    } else {
      NothingDownBeforeRelease(policy, run, steps, novel, n, i - 1);
      RunKeeps(policy, run, steps, novel, n, i - 1);
      assert StepAt(policy, run, steps, i - 1);
      QuietStep(policy, run[i - 1], steps[i - 1], run[i], n, novel[i - 1]);
    }
  }
}

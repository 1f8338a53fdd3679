/**
  What a completed rollout says of the pods themselves. The operator never sees which template a pod runs at the end: it
  takes the controller's count of updated replicas. If that count was true of the ordinals the fleet is to have,
  every live pod behind a completed pass runs the desired template, whatever pods came and went since.
 */
module TrueReports {
  import opened Prelude
  import opened Compatibility
  import opened Census
  import opened Rollout
  import opened Protocol
  import OneDisruption
  import StopAll

  /** The ordinals below n whose pod runs this template. */
  function UpdatedBelow(pods: map<nat, Pod>, template: Template, n: nat): set<nat> {
    set ord | ord in pods && ord < n && pods[ord].rev.template == template
  }

  /** The hypothesis on a report: no more pods are counted as updated than ordinals of the fleet are. */
  predicate CountsTruly(s: System, step: Step) {
    step.Report? && s.Wf() ==>
      step.updated <= |UpdatedBelow(s.pods, s.View().sts.spec.template, s.View().sts.spec.replicas)|
  }

  // ----- the hash tells the template -----

  predicate HashesTrue(versions: seq<Version>) {
    forall j :: 0 <= j < |versions| ==> versions[j].sts.hash == Some(Fingerprint(versions[j].sts.spec.template))
  }

  lemma AppendKeepsHashes(versions: seq<Version>, v: Version)
    requires HashesTrue(versions) && v.sts.hash == Some(Fingerprint(v.sts.spec.template))
    ensures HashesTrue(versions + [v])
  {
  }

  lemma WriteKeepsHash(app: App, desired: Template, v: Version, f: Findings, w: Write, stamp: int)
    requires Permits(app, desired, v.sts, f, w) && v.sts.hash == Some(Fingerprint(v.sts.spec.template))
    ensures var t := Written(v, w, stamp).sts; t.hash == Some(Fingerprint(t.spec.template))
  {
  }

  lemma NextKeepsHashes(policy: Policy, s: System, step: Step, t: System)
    requires s.Wf() && Next(policy, s, step, t) && HashesTrue(s.versions)
    ensures HashesTrue(t.versions) && s.versions <= t.versions && s.viewAt <= t.viewAt
  {
    if PassMoves(policy, s, step, t) {
      PassMovesOnly(policy, s, step, t);
    } else if Commits(s, step, t) {
      WriteKeepsHash(step.p.app, step.p.desired, s.Live(), step.p.f, step.w, step.p.f.stampedAt);
      AppendKeepsHashes(s.versions, Written(s.Live(), step.w, step.p.f.stampedAt));
    } else if PodMoves(s, step, t) {
      PodMovesOnly(s, step, t);
    } else if OthersWrite(s, step, t) {
      AppendKeepsHashes(s.versions, t.versions[|s.versions|]);
    }
  }

  /** In every run the stored hash is that of the stored template, and versions are only ever added. */
  lemma {:induction false} RunKeepsHashes(policy: Policy, run: seq<System>, steps: seq<Step>, k: nat, i: nat)
    requires Run(policy, run, steps) && Init(run[0]) && k <= i < |run|
    ensures HashesTrue(run[i].versions) && run[k].versions <= run[i].versions && run[k].viewAt <= run[i].viewAt
  {
    if i == 0 {
    } else {
      RunKeepsHashes(policy, run, steps, if k < i then k else i - 1, i - 1);
      assert StepAt(policy, run, steps, i - 1);
      NextKeepsHashes(policy, run[i - 1], steps[i - 1], run[i]);
    }
  }

  // ----- while the spec stays -----

  /** Whatever the controller may act on, and whatever is read from this version on, has this spec. */
  predicate SpecStays(s: System, first: nat, spec: Spec) {
    first <= s.viewAt && forall j :: first <= j < |s.versions| ==> s.versions[j].sts.spec == spec
  }

  lemma SpecStayed(policy: Policy, run: seq<System>, steps: seq<Step>, r: nat, i: nat, k: nat)
    requires Run(policy, run, steps) && Init(run[0]) && r <= k <= i < |run|
    requires run[r].View().sts.generation == run[i].Live().sts.generation
    ensures SpecStays(run[k], run[r].viewAt, run[r].View().sts.spec)
  {
    StopAll.RunKeeps(policy, run, steps, i);
    RunKeepsHashes(policy, run, steps, r, i);
    RunKeepsHashes(policy, run, steps, r, k);
    RunKeepsHashes(policy, run, steps, k, i);
    var all, first := run[i].versions, run[r].viewAt;
    forall j | first <= j < |run[k].versions| ensures run[k].versions[j].sts.spec == run[r].View().sts.spec {
      assert all[first] == run[r].View() && all[j] == run[k].versions[j];
      assert all[first].sts.generation <= all[j].sts.generation <= all[|all| - 1].sts.generation;
    }
  }

  /** The pods of the fleet's ordinals run the template, and behind a census there are no others. */
  ghost predicate Inv(s: System, from: nat, spec: Spec) {
    && (forall ord :: ord in s.pods && ord < spec.replicas ==> s.pods[ord].rev.template == spec.template)
    && forall p :: p in s.passes && p.at >= from && p.f.sample.Some? ==>
         forall ord :: ord in s.pods ==> ord < spec.replicas
  }

  /** A listing that passes the census shows every pod there is, and each is of one of the ordinals. */
  lemma CensusFindsAll(items: seq<PodItem>, fleet: string, pods: map<nat, Pod>, n: nat, ord: nat)
    requires Lists(items, fleet, pods) && FullFleet(items, fleet, n) && ord in pods
    ensures ord < n
  {
    var ords: seq<nat> :| ListsAs(items, ords, fleet, pods);
    assert ord in ords;
    var i :| 0 <= i < |ords| && ords[i] == ord;
    FullFleetIsBijection(items, fleet, n);
    assert Names(items)[i] == PodName(fleet, ord) && PodName(fleet, ord) in Elements(Names(items));
    OrdinalNamed(fleet, n, ord);
  }

  lemma OrdinalNamed(fleet: string, n: nat, ord: nat)
    requires PodName(fleet, ord) in OrdinalNames(fleet, n)
    ensures ord < n
  {
    var k :| 0 <= k < n && OrdinalNames(fleet, n)[k] == PodName(fleet, ord);
    PodNameInjective(fleet, k, ord);
  }

  lemma PassMovesKeep(policy: Policy, s: System, step: Step, t: System, first: nat, from: nat, spec: Spec)
    requires s.Wf() && PassMoves(policy, s, step, t) && OneDisruption.Sound(policy) && first <= from
    requires SpecStays(s, first, spec) && Inv(s, from, spec)
    ensures Inv(t, from, spec)
  {
    if step.ReadFleet? && step.p.at >= from {
      var items, p := step.items, step.p;
      if policy.observe(items, step.answers, p.app.fleet, spec.replicas).Some? {
        forall ord | ord in s.pods ensures ord < spec.replicas {
          CensusFindsAll(items, p.app.fleet, s.pods, spec.replicas, ord);
        }
      }
    }
  }

  lemma PodMovesKeep(s: System, step: Step, t: System, first: nat, from: nat, spec: Spec)
    requires s.Wf() && PodMoves(s, step, t) && SpecStays(s, first, spec) && spec.partition == 0
    requires Inv(s, from, spec)
    ensures Inv(t, from, spec)
  {
  }

  lemma NextKeeps(policy: Policy, s: System, step: Step, t: System, first: nat, from: nat, spec: Spec)
    requires s.Wf() && Next(policy, s, step, t) && OneDisruption.Sound(policy) && first <= from && spec.partition == 0
    requires SpecStays(s, first, spec) && Inv(s, from, spec)
    ensures Inv(t, from, spec)
  {
    if PassMoves(policy, s, step, t) {
      PassMovesKeep(policy, s, step, t, first, from, spec);
    } else if PodMoves(s, step, t) {
      PodMovesKeep(s, step, t, first, from, spec);
    }
  }

  lemma {:induction false} RunKeeps(
    policy: Policy, run: seq<System>, steps: seq<Step>, r: nat, i: nat, k: nat, from: nat, spec: Spec)
    requires Run(policy, run, steps) && Init(run[0]) && OneDisruption.Sound(policy) && r <= k <= i < |run|
    requires run[r].View().sts.generation == run[i].Live().sts.generation && run[r].View().sts.spec == spec
    requires spec.partition == 0 && run[r].viewAt <= from && Inv(run[r], from, spec)
    ensures Inv(run[k], from, spec)
  {
    if k == r {
    } else {
      RunKeeps(policy, run, steps, r, i, k - 1, from, spec);
      SpecStayed(policy, run, steps, r, i, k - 1);
      assert StepAt(policy, run, steps, k - 1);
      NextKeeps(policy, run[k - 1], steps[k - 1], run[k], run[r].viewAt, from, spec);
    }
  }

  // ----- behind a completed pass -----

  /** There are at most n of them, and fewer if one of the ordinals is not among them. */
  lemma {:induction false} MissingCounts(pods: map<nat, Pod>, template: Template, n: nat, ord: nat)
    ensures |UpdatedBelow(pods, template, n)| <= n
    ensures ord < n && ord !in UpdatedBelow(pods, template, n) ==> |UpdatedBelow(pods, template, n)| < n
  {
    if n == 0 {
    } else {
      var last := n - 1;
      MissingCounts(pods, template, last, ord);
      if last in pods && pods[last].rev.template == template {
        assert UpdatedBelow(pods, template, n) == UpdatedBelow(pods, template, last) + {last};
      } else {
        assert UpdatedBelow(pods, template, n) == UpdatedBelow(pods, template, last);
      }
    }
  }

  /** The pass found the rollout completed. */
  predicate FindsCompleted(s: System, p: Pass)
    requires s.Wf() && p in s.passes
  {
    Completes(Decide(p.app, p.desired, p.appVersion, s.versions[p.at].sts, p.f))
  }

  /** The version this pass read carries the status written by this report. */
  predicate ReadsReport(s: System, p: Pass, reported: System)
    requires s.Wf() && reported.Wf() && p in s.passes
  {
    p.at >= reported.LastAt() && s.versions[p.at].sts.status == reported.Live().sts.status
  }

  /** What a completed pass read of the object, and what that says of the report it read. */
  lemma CompletedReport(policy: Policy, run: seq<System>, steps: seq<Step>, r: nat, i: nat, p: Pass)
    requires Run(policy, run, steps) && Init(run[0]) && r < i < |run| && steps[r].Report? && p in run[i].passes
    requires ReadsReport(run[i], p, run[r + 1]) && FindsCompleted(run[i], p)
    requires run[i].versions[p.at].sts.generation == run[i].Live().sts.generation
    ensures run[r].View().sts.generation == run[i].Live().sts.generation && p.at >= |run[r].versions|
    ensures run[r].View().sts.spec == run[i].versions[p.at].sts.spec == Spec(p.desired, steps[r].updated, 0)
  {
    var sts := run[i].versions[p.at].sts;
    RolledOutIff(p.app, p.desired, p.appVersion, sts, p.f);
    assert StepAt(policy, run, steps, r);
    assert sts.status.observedGeneration == run[r].View().sts.generation;
    assert sts.status.updatedReplicas == steps[r].updated;
    SpecStayed(policy, run, steps, r, i, i);
    RunKeepsHashes(policy, run, steps, i, i);
  }

  /**
    Behind a completed pass, if the report it read counted truly and the spec has not changed since: every live pod runs
    the desired template, and there is no pod beyond the scale, whatever pods failed or were replaced meanwhile.
   */
  lemma CompletedRunsDesired(
    policy: Policy, run: seq<System>, steps: seq<Step>, r: nat, i: nat, p: Pass, ord: nat)
    requires Run(policy, run, steps) && Init(run[0]) && OneDisruption.Sound(policy) && r < i < |run|
    requires steps[r].Report? && CountsTruly(run[r], steps[r]) && p in run[i].passes && ord in run[i].pods
    requires ReadsReport(run[i], p, run[r + 1]) && FindsCompleted(run[i], p)
    requires run[i].versions[p.at].sts.generation == run[i].Live().sts.generation
    ensures run[i].pods[ord].rev.template == p.desired && ord < run[i].versions[p.at].sts.spec.replicas
  {
    CompletedReport(policy, run, steps, r, i, p);
    var spec, from := run[r].View().sts.spec, |run[r].versions|;
    forall k | k in run[r].pods && k < spec.replicas ensures run[r].pods[k].rev.template == spec.template {
      MissingCounts(run[r].pods, spec.template, spec.replicas, k);
    }
    RunKeeps(policy, run, steps, r, i, i, from, spec);
    RolledOutIff(p.app, p.desired, p.appVersion, run[i].versions[p.at].sts, p.f);
  }

  /** And so for the operator with its own census. */
  lemma CelldCompletedRunsDesired(run: seq<System>, steps: seq<Step>, r: nat, i: nat, p: Pass, ord: nat)
    requires Run(CelldPolicy(), run, steps) && Init(run[0]) && r < i < |run|
    requires steps[r].Report? && CountsTruly(run[r], steps[r]) && p in run[i].passes && ord in run[i].pods
    requires ReadsReport(run[i], p, run[r + 1]) && FindsCompleted(run[i], p)
    requires run[i].versions[p.at].sts.generation == run[i].Live().sts.generation
    ensures run[i].pods[ord].rev.template == p.desired && ord < run[i].versions[p.at].sts.spec.replicas
  {
    OneDisruption.CelldSound();
    CompletedRunsDesired(CelldPolicy(), run, steps, r, i, p, ord);
  }
}

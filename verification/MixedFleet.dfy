/** Which revisions can be alive together during rolling updates, stacked and abandoned ones included. */
module MixedFleet {
  import opened Prelude
  import opened Compatibility
  import opened Census
  import opened Rollout
  import opened Protocol
  import opened Reach
  import StopAll

  /** Any two of these revisions are compatible from the older to the newer, and one era has one template. */
  ghost predicate Harmonious(policy: Policy, revisions: set<Revision>) {
    forall x, y :: x in revisions && y in revisions ==>
      && (x.era < y.era ==> policy.compatible(x.template, y.template))
      && (x.era == y.era ==> x == y)
  }

  ghost predicate NoneNewer(revisions: set<Revision>, era: nat) { forall x :: x in revisions ==> x.era <= era }

  // ----- under the hypothesis about recreated pods -----

  /**
    The hypothesis: a pod is created with a revision the last template write brought together, and when a template
    write lands, the pods that came up since its census can share a fleet with the template it installs.
   */
  ghost predicate CensusKeepsUp(policy: Policy, s: System, step: Step)
    requires s.Wf()
  {
    && CreatesKnown(s, step)
    && (step.Commit? && step.w.kind == Freeze ==>
          forall x :: x in Revisions(s.pods) - step.p.saw - {s.Live().Rev()} ==>
            policy.compatible(x.template, step.p.desired))
  }

  /** A pass found no hazard, so nothing its census saw conflicts with what it wants to install. */
  predicate Checked(policy: Policy, v: Version, p: Pass) {
    p.f.hazard == Ok(false) ==>
      && policy.compatible(v.sts.spec.template, p.desired)
      && forall x :: x in p.saw ==> policy.compatible(x.template, p.desired)
  }

  ghost predicate PassesChecked(policy: Policy, versions: seq<Version>, passes: set<Pass>, cleared: set<Revision>) {
    forall p :: p in passes ==>
      && p.at < |versions| && Checked(policy, versions[p.at], p)
      && (p.at == |versions| - 1 ==> p.saw <= cleared)
  }

  ghost predicate Inv(policy: Policy, s: System)
    requires s.Wf()
  {
    && Harmonious(policy, s.cleared) && NoneNewer(s.cleared, s.Live().era)
    && Revisions(s.pods) <= s.cleared && s.Live().Rev() in s.cleared
    && PassesChecked(policy, s.versions, s.passes, s.cleared)
  }

  lemma CensusChecks(policy: Policy, v: Version, p: Pass, items: seq<PodItem>, pods: map<nat, Pod>)
    requires Lists(items, p.app.fleet, pods)
    ensures Checked(policy, v, AfterCensus(policy, v, p, items, Revisions(pods)))
  {
  }

  lemma PassMovesKeep(policy: Policy, s: System, step: Step, t: System)
    requires s.Wf() && PassMoves(policy, s, step, t)
    requires PassesChecked(policy, s.versions, s.passes, s.cleared) && Revisions(s.pods) <= s.cleared
    ensures PassesChecked(policy, s.versions, t.passes, s.cleared)
  {
    forall q | q in t.passes
      ensures q.at < |s.versions| && Checked(policy, s.versions[q.at], q)
      ensures (q.at == |s.versions| - 1 ==> q.saw <= s.cleared)
    {
      if q !in s.passes && !step.Begin? {
        var p := step.p;
        assert Checked(policy, s.versions[p.at], p);
        if step.ReadCensus? {
          CensusChecks(policy, s.versions[p.at], p, step.items, s.pods);
        }
      }
    }
  }

  lemma FreezeKeeps(policy: Policy, s: System, step: Step, t: System)
    requires s.Wf() && Commits(s, step, t) && step.w.kind == Freeze && Inv(policy, s) && CensusKeepsUp(policy, s, step)
    ensures t.Wf() && Inv(policy, t)
  {
    var p, v := step.p, s.Live();
    assert Checked(policy, v, p) && p.saw <= s.cleared;
    assert t.Live().Rev() == Revision(p.desired, v.era + 1);
    assert t.cleared == p.saw + Revisions(s.pods) + {v.Rev(), t.Live().Rev()};
  }

  lemma RestartKeeps(policy: Policy, s: System, step: Step, t: System)
    requires s.Wf() && Commits(s, step, t) && step.w.kind == Restart && Inv(policy, s) && StopAll.Inv(s)
    ensures t.Wf() && Inv(policy, t)
  {
    StopAll.RestartFindsNothing(s, step, t);
    assert t.cleared == {t.Live().Rev()};
  }

  lemma OtherWritesKeep(policy: Policy, s: System, step: Step, t: System)
    requires s.Wf() && Commits(s, step, t) && step.w.kind != Restart && step.w.kind != Freeze && Inv(policy, s)
    ensures t.Wf() && Inv(policy, t)
  {
  }

  lemma PodMovesKeep(policy: Policy, s: System, step: Step, t: System)
    requires s.Wf() && PodMoves(s, step, t) && Inv(policy, s) && CensusKeepsUp(policy, s, step)
    ensures t.Wf() && Inv(policy, t)
  {
  }

  lemma OthersKeep(policy: Policy, s: System, step: Step, t: System)
    requires s.Wf() && OthersWrite(s, step, t) && Inv(policy, s)
    ensures t.Wf() && Inv(policy, t)
  {
  }

  lemma NextKeeps(policy: Policy, s: System, step: Step, t: System)
    requires s.Wf() && Next(policy, s, step, t) && Inv(policy, s) && StopAll.Inv(s) && CensusKeepsUp(policy, s, step)
    ensures t.Wf() && Inv(policy, t)
  {
    if PassMoves(policy, s, step, t) {
      PassMovesOnly(policy, s, step, t);
      PassMovesKeep(policy, s, step, t);
    } else if Commits(s, step, t) {
      if step.w.kind == Freeze {
        FreezeKeeps(policy, s, step, t);
      } else if step.w.kind == Restart {
        RestartKeeps(policy, s, step, t);
      } else {
        OtherWritesKeep(policy, s, step, t);
      }
    } else if PodMoves(s, step, t) {
      PodMovesKeep(policy, s, step, t);
    } else if OthersWrite(s, step, t) {
      OthersKeep(policy, s, step, t);
    }
  }

  lemma InitHolds(policy: Policy, s: System)
    requires Init(s)
    ensures s.Wf() && Inv(policy, s)
  {
  }

  lemma StepKeeps(policy: Policy, run: seq<System>, steps: seq<Step>, k: nat)
    requires Run(policy, run, steps) && k < |steps| && Inv(policy, run[k]) && StopAll.Inv(run[k])
    requires CensusKeepsUp(policy, run[k], steps[k])
    ensures Inv(policy, run[k + 1])
  {
    assert StepAt(policy, run, steps, k);
    NextKeeps(policy, run[k], steps[k], run[k + 1]);
  }

  lemma {:induction false} RunKeeps(policy: Policy, run: seq<System>, steps: seq<Step>, i: nat)
    requires Run(policy, run, steps) && Init(run[0]) && i < |run|
    requires forall k :: 0 <= k < |steps| ==> CensusKeepsUp(policy, run[k], steps[k])
    ensures Inv(policy, run[i])
  {
    if i == 0 {
      InitHolds(policy, run[0]);
    } else {
      var k := i - 1;
      RunKeeps(policy, run, steps, k);
      StopAll.RunKeeps(policy, run, steps, k);
      StepKeeps(policy, run, steps, k);
    }
  }

  /**
    Rolling never mixes incompatible nodes: in every run in which recreated pods have revisions the
    census knew, any two live pods are compatible from the older template to the newer, across
    abandoned and stacked rollouts and any edits, stale controller copies and concurrent passes.
   */
  lemma NeverMixesIncompatible(policy: Policy, run: seq<System>, steps: seq<Step>, i: nat, a: nat, b: nat)
    requires Run(policy, run, steps) && Init(run[0]) && i < |run|
    requires forall k :: 0 <= k < |steps| ==> CensusKeepsUp(policy, run[k], steps[k])
    requires a in run[i].pods && b in run[i].pods
    ensures var p, q := run[i].pods[a].rev, run[i].pods[b].rev;
            (p.era < q.era ==> policy.compatible(p.template, q.template)) && (p.era == q.era ==> p == q)
  {
    RunKeeps(policy, run, steps, i);
    assert run[i].pods[a].rev in Revisions(run[i].pods) && run[i].pods[b].rev in Revisions(run[i].pods);
  }

  /**
    For celld's own rules: no live pod is across a refused boundary from, or streams incompatibly with, a newer
    one.
   */
  lemma CelldNeverMixes(run: seq<System>, steps: seq<Step>, i: nat, a: nat, b: nat)
    requires Run(CelldPolicy(), run, steps) && Init(run[0]) && i < |run|
    requires forall k :: 0 <= k < |steps| ==> CensusKeepsUp(CelldPolicy(), run[k], steps[k])
    requires a in run[i].pods && b in run[i].pods && run[i].pods[a].rev.era < run[i].pods[b].rev.era
    ensures FleetHazard(run[i].pods[a].rev.template, run[i].pods[b].rev.template) == Safe
  {
    NeverMixesIncompatible(CelldPolicy(), run, steps, i, a, b);
    assert CelldPolicy().compatible(run[i].pods[a].rev.template, run[i].pods[b].rev.template);
  }
}

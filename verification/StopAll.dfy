/**
  A recreate does not overlap two fleets: however stale the controller's copy, however the passes
  interleave or die, and whatever the user edits meanwhile, the new template is installed only
  when no pod of any kind is left and none can still be created from an older version, and until
  the next template write only pods of the new one come up. What that write may bring back is
  the subject of DrainedReturn.
 */
module StopAll {
  import opened Prelude
  import opened Compatibility
  import opened Census
  import opened Rollout
  import opened Protocol

  /** The controller has reported the live generation, and it asks for no pods. */
  predicate Stopped(sts: Sts) { sts.spec.replicas == 0 && sts.status.observedGeneration == sts.generation }

  /** A pass that listed no pods of a stopped fleet is still right about it, unless the object has changed. */
  ghost predicate EmptyListsHold(versions: seq<Version>, pods: map<nat, Pod>, passes: set<Pass>)
    requires versions != []
  {
    forall p :: p in passes && p.at == |versions| - 1 && p.f.listed == Some(0) ==>
      Stopped(versions[|versions| - 1].sts) ==>
      pods == map[]
  }

  predicate IsRestart(v: Version) { v.writer == Operator(Restart) }

  /** Every live pod was created from a version at or after each restart, and no earlier version can create one. */
  ghost predicate NoneFromBefore(versions: seq<Version>, viewAt: nat, pods: map<nat, Pod>) {
    forall k :: 0 <= k < |versions| && IsRestart(versions[k]) ==>
      && (forall ord :: ord in pods ==> pods[ord].born >= k)
      && (forall j :: viewAt <= j < k ==> versions[j].sts.spec.replicas == 0)
  }

  /** A version the controller may act on creates nothing, or creates only the live revision. */
  predicate CreatesOnly(v: Version, live: Revision) {
    v.sts.spec.replicas == 0 || (v.Rev() == live && v.sts.spec.partition == 0)
  }

  /** From a clean installation to the next template write, the live revision is the only one there is. */
  ghost predicate OneRevision(versions: seq<Version>, viewAt: nat, pods: map<nat, Pod>)
    requires versions != []
  {
    var live := versions[|versions| - 1];
    live.clean ==>
      && live.sts.spec.partition == 0
      && (forall ord :: ord in pods ==> pods[ord].rev == live.Rev())
      && (forall j :: viewAt <= j < |versions| ==> CreatesOnly(versions[j], live.Rev()))
  }

  ghost predicate Inv(s: System)
    requires s.Wf()
  {
    && Ordered(s.versions, s.viewAt)
    && EmptyListsHold(s.versions, s.pods, s.passes)
    && NoneFromBefore(s.versions, s.viewAt, s.pods)
    && OneRevision(s.versions, s.viewAt, s.pods)
  }

  lemma ListsNothing(items: seq<PodItem>, fleet: string, pods: map<nat, Pod>)
    requires Lists(items, fleet, pods) && items == []
    ensures pods == map[]
  {
  }

  /** A pass gets its number of listed pods from a list just taken, or had it before. */
  lemma ListedFrom(policy: Policy, s: System, step: Step, t: System, q: Pass) returns (p: Pass)
    requires s.Wf() && PassMoves(policy, s, step, t) && q in t.passes && q.f.listed.Some?
    ensures (p in s.passes && p.at == q.at && p.f.listed == q.f.listed) || (q.f.listed == Some(0) ==> s.pods == map[])
  {
    p := q;
    if q !in s.passes && !step.Begin? {
      p := step.p;
      if step.ReadFleet? && step.items == [] {
        ListsNothing(step.items, p.app.fleet, s.pods);
      }
    }
  }

  lemma EmptyListsKept(policy: Policy, s: System, step: Step, t: System)
    requires s.Wf() && PassMoves(policy, s, step, t) && EmptyListsHold(s.versions, s.pods, s.passes)
    ensures EmptyListsHold(s.versions, s.pods, t.passes)
  {
    forall q | q in t.passes && q.at == |s.versions| - 1 && q.f.listed == Some(0)
        && Stopped(s.versions[|s.versions| - 1].sts)
      ensures s.pods == map[]
    {
      var p := ListedFrom(policy, s, step, t, q);
    }
  }

  lemma PassMovesKeep(policy: Policy, s: System, step: Step, t: System)
    requires s.Wf() && PassMoves(policy, s, step, t) && Inv(s)
    ensures t.Wf() && Inv(t)
  {
    PassMovesOnly(policy, s, step, t);
    EmptyListsKept(policy, s, step, t);
  }

  lemma PodMovesKeep(s: System, step: Step, t: System)
    requires s.Wf() && PodMoves(s, step, t) && Inv(s)
    ensures t.Wf() && Inv(t)
  {
    PodMovesOnly(s, step, t);
    if step.CreatePod? {
      if Stopped(s.Live().sts) {
        ObservedMeansCurrent(s.versions, s.viewAt, s.viewAt);
      }
      assert s.versions[s.viewAt].sts.spec.replicas > 0;
    }
  }

  lemma RestartNeedsStopped(p: Pass, sts: Sts, w: Write)
    requires Permits(p.app, p.desired, sts, p.f, w) && w.kind == Restart
    ensures Stopped(sts) && p.f.listed == Some(0)
  {
  }

  /** Once the controller has reported the stopped generation, every version it may still hold asks for no pods. */
  lemma StoppedForGood(versions: seq<Version>, viewAt: nat)
    requires viewAt < |versions| && Ordered(versions, viewAt) && Stopped(versions[|versions| - 1].sts)
    ensures forall j :: viewAt <= j < |versions| ==> versions[j].sts.spec.replicas == 0
  {
    forall j | viewAt <= j < |versions| ensures versions[j].sts.spec.replicas == 0 {
      ObservedMeansCurrent(versions, viewAt, j);
    }
  }

  /** The heart of it: a restart finds no pod, and every version the controller may still hold asks for none. */
  lemma RestartFindsNothing(s: System, step: Step, t: System)
    requires s.Wf() && Commits(s, step, t) && step.w.kind == Restart
    requires Ordered(s.versions, s.viewAt) && EmptyListsHold(s.versions, s.pods, s.passes)
    ensures s.pods == map[]
    ensures forall j :: s.viewAt <= j < |s.versions| ==> s.versions[j].sts.spec.replicas == 0
  {
    RestartNeedsStopped(step.p, s.Live().sts, step.w);
    StoppedForGood(s.versions, s.viewAt);
  }

  /** What any write other than a template write leaves alone. */
  lemma OtherWritesKeepRevision(app: App, desired: Template, v: Version, f: Findings, w: Write, stamp: int)
    requires Permits(app, desired, v.sts, f, w) && w.kind != Freeze && w.kind != Restart
    ensures var u := Written(v, w, stamp);
            u.Rev() == v.Rev() && u.clean == v.clean && (v.sts.spec.partition == 0 ==> u.sts.spec.partition == 0)
  {
  }

  lemma AppendSameRevision(versions: seq<Version>, viewAt: nat, pods: map<nat, Pod>, v: Version)
    requires viewAt < |versions| && OneRevision(versions, viewAt, pods) && NoneFromBefore(versions, viewAt, pods)
    requires var live := versions[|versions| - 1];
             && v.Rev() == live.Rev() && v.clean == live.clean
             && (live.sts.spec.partition == 0 ==> v.sts.spec.partition == 0)
    requires !IsRestart(v)
    ensures OneRevision(versions + [v], viewAt, pods) && NoneFromBefore(versions + [v], viewAt, pods)
  {
  }

  lemma CommitKeeps(s: System, step: Step, t: System)
    requires s.Wf() && Commits(s, step, t) && Inv(s)
    ensures t.Wf() && Inv(t)
  {
    CommitKeepsOrder(s, step, t);
    var v := Written(s.Live(), step.w, step.p.f.stampedAt);
    assert t.versions == s.versions + [v] && t.Live() == v;
    if step.w.kind == Restart {
      RestartFindsNothing(s, step, t);
    } else if step.w.kind == Freeze {
      assert !v.clean && !IsRestart(v);
    } else {
      OtherWritesKeepRevision(step.p.app, step.p.desired, s.Live(), step.p.f, step.w, step.p.f.stampedAt);
      AppendSameRevision(s.versions, s.viewAt, s.pods, v);
    }
  }

  lemma OthersKeep(s: System, step: Step, t: System)
    requires s.Wf() && OthersWrite(s, step, t) && Inv(s)
    ensures t.Wf() && Inv(t)
  {
    OthersKeepOrder(s, step, t);
    var v := t.versions[|s.versions|];
    assert t.versions == s.versions + [v];
    AppendSameRevision(s.versions, s.viewAt, s.pods, v);
  }

  lemma AdvancesKeep(s: System, step: Step, t: System)
    requires s.Wf() && Advances(s, step, t) && Inv(s)
    ensures t.Wf() && Inv(t)
  {
  }

  lemma NextKeeps(policy: Policy, s: System, step: Step, t: System)
    requires s.Wf() && Next(policy, s, step, t) && Inv(s)
    ensures t.Wf() && Inv(t)
  {
    if PassMoves(policy, s, step, t) {
      PassMovesKeep(policy, s, step, t);
    } else if Commits(s, step, t) {
      CommitKeeps(s, step, t);
    } else if PodMoves(s, step, t) {
      PodMovesKeep(s, step, t);
    } else if OthersWrite(s, step, t) {
      OthersKeep(s, step, t);
    } else {
      AdvancesKeep(s, step, t);
    }
  }

  lemma InitHolds(s: System)
    requires Init(s)
    ensures s.Wf() && Inv(s)
  {
  }

  lemma {:induction false} RunKeeps(policy: Policy, run: seq<System>, steps: seq<Step>, i: nat)
    requires Run(policy, run, steps) && Init(run[0]) && i < |run|
    ensures Inv(run[i])
  {
    if i == 0 {
      InitHolds(run[0]);
    } else {
      RunKeeps(policy, run, steps, i - 1);
      assert StepAt(policy, run, steps, i - 1);
      NextKeeps(policy, run[i - 1], steps[i - 1], run[i]);
    }
  }

  /**
    What a recreate promises. In every state of every run: no pod created before a restart is
    alive after it; and from a restart to the next template write every live pod runs
    exactly the installed template.
   */
  lemma NeverOverlaps(policy: Policy, run: seq<System>, steps: seq<Step>, i: nat)
    requires Run(policy, run, steps) && Init(run[0]) && i < |run|
    ensures forall k, ord :: 0 <= k < |run[i].versions| && IsRestart(run[i].versions[k]) && ord in run[i].pods ==>
              run[i].pods[ord].born >= k
    ensures run[i].Live().clean ==> forall ord :: ord in run[i].pods ==> run[i].pods[ord].rev == run[i].Live().Rev()
  {
    RunKeeps(policy, run, steps, i);
  }

  /** And the restart itself happens with the fleet entirely gone. */
  lemma RestartsOnlyWhenGone(policy: Policy, run: seq<System>, steps: seq<Step>, i: nat)
    requires Run(policy, run, steps) && Init(run[0]) && i < |steps|
    requires Commits(run[i], steps[i], run[i + 1]) && steps[i].w.kind == Restart
    ensures run[i].pods == map[] && run[i + 1].pods == map[]
  {
    RunKeeps(policy, run, steps, i);
    RestartFindsNothing(run[i], steps[i], run[i + 1]);
  }
}

/**
  The rollout as a transition system. Any number of operator passes run at once, each reading, then
  reading more, then attempting one compare-and-swap; the StatefulSet controller acts on a copy
  of the object that may lag behind; pods come, go and fail; anyone may rescale; time passes.
 */
module Protocol {
  import opened Prelude
  import opened Compatibility
  import opened Census
  import opened Rollout

  /** A template together with the number of the template write that installed it. */
  datatype Revision = Revision(template: Template, era: nat)

  /** A live pod; `born` is the version of the StatefulSet its controller created it from. */
  datatype Pod = Pod(rev: Revision, born: nat, ready: bool, deleting: bool)

  datatype Writer = Creation | Operator(kind: Kind) | Controller | Scaling

  /**
    One stored version of the StatefulSet. `current` is the controller's current revision, which it
    recreates pods below the partition from. The rest is history: who wrote the version, the
    clock reading behind its settle deadline, and whether its template was installed
    with the fleet stopped.
   */
  datatype Version = Version(sts: Sts, era: nat, current: Revision, writer: Writer, stamp: int, clean: bool) {
    function Rev(): Revision { Revision(sts.spec.template, era) }
  }

  /** A pass in flight: the version it read, what it is reconciling to, and its findings so far. */
  datatype Pass = Pass(at: nat, app: App, desired: Template, appVersion: string, f: Findings, saw: set<Revision>)

  /**
    The index in `versions` is the resourceVersion and the last one is live; the controller works
    from version `viewAt`. The rest is history: the revisions checked against each other at the last template
    write, and the pods seen since the last operator write and since the last template write.
   */
  datatype System = System(
    versions: seq<Version>, viewAt: nat, pods: map<nat, Pod>, passes: set<Pass>, now: int,
    cleared: set<Revision>, recent: set<(nat, Pod)>, seen: set<(nat, Pod)>)
  {
    predicate Wf() { versions != [] && viewAt < |versions| && forall p :: p in passes ==> p.at < |versions| }

    function LastAt(): nat
      requires Wf()
    {
      |versions| - 1
    }

    function Live(): Version
      requires Wf()
    {
      versions[|versions| - 1]
    }

    function View(): Version
      requires Wf()
    {
      versions[viewAt]
    }
  }

  datatype Step =
    | Begin(app: App, desired: Template, appVersion: string, paused: Result<bool>)
    | ReadCensus(p: Pass, items: seq<PodItem>)
    | ReadGate(p: Pass, gate: map<nat, GateRead>)
    | ReadFleet(p: Pass, items: seq<PodItem>, answers: seq<Response>)
    | ReadClock(p: Pass)
    | StampClock(p: Pass)
    | Commit(p: Pass, w: Write)
    | Finish(p: Pass)
    | AdvanceView(to: nat)
    | Report(replicas: nat, ready: nat, updated: nat, complete: bool)
    | CreatePod(ord: nat)
    | DeletePod(ord: nat)
    | PodReady(ord: nat)
    | PodUnready(ord: nat)
    | PodGone(ord: nat)
    | Rescaled(to: nat)
    | Tick(time: int)

  /** A list entry shows this pod. */
  predicate Shows(item: PodItem, fleet: string, ord: nat, pod: Pod) {
    && item.name == PodName(fleet, ord) && item.owned && item.template == pod.rev.template
    && item.deleting == pod.deleting && (Census.PodReady(item) <==> pod.ready && !pod.deleting)
  }

  /** The entries show the pods of these ordinals, and those are all the pods. */
  predicate ListsAs(items: seq<PodItem>, ords: seq<nat>, fleet: string, pods: map<nat, Pod>) {
    && |items| == |ords|
    && (forall i :: 0 <= i < |ords| ==> ords[i] in pods && Shows(items[i], fleet, ords[i], pods[ords[i]]))
    && (forall ord: nat :: ord in pods ==> ord in ords)
  }

  /** An uncached list at this moment: every live pod of the fleet and nothing else. */
  ghost predicate Lists(items: seq<PodItem>, fleet: string, pods: map<nat, Pod>) {
    exists ords: seq<nat> :: ListsAs(items, ords, fleet, pods)
  }

  function Revisions(pods: map<nat, Pod>): set<Revision> { set ord | ord in pods :: pods[ord].rev }

  function Shown(pods: map<nat, Pod>): set<(nat, Pod)> { set ord | ord in pods :: (ord, pods[ord]) }

  function Replace(passes: set<Pass>, p: Pass, q: Pass): set<Pass> { passes - {p} + {q} }

  /** The version an operator write adds. */
  function Written(v: Version, w: Write, stamp: int): Version {
    var installs := Installs(w.kind);
    Version(
      Stored(v.sts, w.sts), if installs then v.era + 1 else v.era, v.current, Operator(w.kind), stamp,
      if installs then w.kind == Restart else v.clean)
  }

  /** What the last template write brought together: what its census saw, the pods it landed on, both templates. */
  function Clearance(
    p: Pass, alive: set<Revision>, v: Version, w: Version, cleared: set<Revision>): set<Revision>
  {
    if w.writer == Operator(Freeze) then p.saw + alive + {v.Rev(), w.Rev()}
    else if w.writer == Operator(Restart) then {w.Rev()}
    else cleared
  }

  /** The revision the controller gives an ordinal it creates from this version. */
  function RevisionFor(v: Version, ord: nat): Revision {
    if ord < v.sts.spec.partition then v.current else v.Rev()
  }

  /** The controller's rolling update wants this pod replaced. */
  predicate Outdated(v: Version, ord: nat, pod: Pod) {
    ord >= v.sts.spec.partition && pod.rev.template != v.sts.spec.template
  }

  predicate AllComplete(v: Version, pods: map<nat, Pod>) {
    forall ord: nat :: ord < v.sts.spec.replicas ==>
        ord in pods && pods[ord].ready && pods[ord].rev.template == v.sts.spec.template
  }

  function WithPod(s: System, ord: nat, pod: Pod): System {
    s.(pods := s.pods[ord := pod], recent := s.recent + {(ord, pod)}, seen := s.seen + {(ord, pod)})
  }

  function WithVersion(s: System, v: Version): System { s.(versions := s.versions + [v]) }

  function WithPass(s: System, p: Pass, q: Pass): System { s.(passes := Replace(s.passes, p, q)) }

  function WithoutPass(s: System, p: Pass): System { s.(passes := s.passes - {p}) }

  /** A pass that has just read this version. */
  function Started(
    policy: Policy, at: nat, v: Version, now: int, app: App, desired: Template, appVersion: string,
    paused: Result<bool>): Pass
  {
    Pass(
      at, app, desired, appVersion,
      Findings(
        paused, policy.refused(v.sts.spec.template.image, app.image, app.strategy == Recreate),
        LiveHazard(policy, v.sts.spec.template, desired, None), Wait, None, None, now, now),
      {})
  }

  function AfterCensus(policy: Policy, v: Version, p: Pass, items: seq<PodItem>, saw: set<Revision>): Pass {
    p.(f := p.f.(hazard := LiveHazard(policy, v.sts.spec.template, p.desired, Some(items))), saw := saw)
  }

  function AfterGate(v: Version, p: Pass, gate: map<nat, GateRead>): Pass {
    p.(f := p.f.(gate := GateOf(v.sts, gate)))
  }

  function AfterFleet(policy: Policy, v: Version, p: Pass, items: seq<PodItem>, answers: seq<Response>): Pass {
    p.(f := p.f.(
        sample := SampleOfFleet(policy, p.app.fleet, v.sts.spec.replicas, Some(items), answers),
        listed := Some(|items|)))
  }

  function AfterClock(p: Pass, now: int): Pass { p.(f := p.f.(checkedAt := now, stampedAt := now)) }

  function AfterStamp(p: Pass, now: int): Pass { p.(f := p.f.(stampedAt := now)) }

  predicate Installs(kind: Kind) { kind == Freeze || kind == Restart }

  /** The state after p's write w has landed. */
  function Committed(s: System, p: Pass, w: Write): System
    requires s.Wf()
  {
    var v := Written(s.Live(), w, p.f.stampedAt);
    s.(versions := s.versions + [v], passes := s.passes - {p},
       cleared := Clearance(p, Revisions(s.pods), s.Live(), v, s.cleared), recent := Shown(s.pods),
       seen := if Installs(w.kind) then Shown(s.pods) else s.seen)
  }

  /** The controller's status write: computed from its view, stored on the live object. */
  function Reported(live: Version, view: Version, replicas: nat, ready: nat, updated: nat, complete: bool): Version {
    live.(
      sts := live.sts.(status := Status(view.sts.generation, Some(view.sts.spec.template), replicas, ready, updated)),
      current := if complete then view.Rev() else view.current, writer := Controller)
  }

  function Scaled(live: Version, to: nat): Version {
    live.(sts := Stored(live.sts, RescaleFleet(live.sts, to)), writer := Scaling)
  }

  /** The revisions that run now, and those the controller may still create from the versions it may act on. */
  function Potential(versions: seq<Version>, viewAt: nat, pods: map<nat, Pod>): set<Revision> {
    Revisions(pods)
    + (set j | viewAt <= j < |versions| :: versions[j].Rev())
    + (set j | viewAt <= j < |versions| :: versions[j].current)
  }

  /** Nothing that runs or may still be created has this template. */
  predicate Unused(s: System, template: Template) {
    forall x :: x in Potential(s.versions, s.viewAt, s.pods) ==> x.template != template
  }

  /** The steps of a pass before its write. */
  ghost predicate PassMoves(policy: Policy, s: System, step: Step, t: System)
    requires s.Wf()
  {
    match step
    case Begin(app, desired, appVersion, paused) =>
      && desired.image == app.image
      && t == s.(passes := s.passes + {Started(policy, s.LastAt(), s.Live(), s.now, app, desired, appVersion, paused)})
    case ReadCensus(p, items) =>
      && p in s.passes && Lists(items, p.app.fleet, s.pods)
      && t == WithPass(s, p, AfterCensus(policy, s.versions[p.at], p, items, Revisions(s.pods)))
    case ReadGate(p, gate) =>
      && p in s.passes && p.f.listed.None?
      && t == WithPass(s, p, AfterGate(s.versions[p.at], p, gate))
    case ReadFleet(p, items, answers) =>
      && p in s.passes && Lists(items, p.app.fleet, s.pods)
      && t == WithPass(s, p, AfterFleet(policy, s.versions[p.at], p, items, answers))
    case ReadClock(p) => p in s.passes && t == WithPass(s, p, AfterClock(p, s.now))
    case StampClock(p) => p in s.passes && t == WithPass(s, p, AfterStamp(p, s.now))
    case Finish(p) => p in s.passes && t == WithoutPass(s, p)
    case _ => false
  }

  /** The steps that change pods. */
  ghost predicate PodMoves(s: System, step: Step, t: System)
    requires s.Wf()
  {
    match step
    case CreatePod(ord) =>
      && ord !in s.pods && ord < s.View().sts.spec.replicas
      && t == WithPod(s, ord, Pod(RevisionFor(s.View(), ord), s.viewAt, false, false))
    case DeletePod(ord) =>
      && ord in s.pods && (ord >= s.View().sts.spec.replicas || Outdated(s.View(), ord, s.pods[ord]))
      && t == WithPod(s, ord, s.pods[ord].(deleting := true))
    case PodReady(ord) => ord in s.pods && t == WithPod(s, ord, s.pods[ord].(ready := true))
    case PodUnready(ord) => ord in s.pods && t == WithPod(s, ord, s.pods[ord].(ready := false))
    case PodGone(ord) => ord in s.pods && t == s.(pods := s.pods - {ord})
    case _ => false
  }

  /** The steps that write the StatefulSet without being the operator. */
  ghost predicate OthersWrite(s: System, step: Step, t: System)
    requires s.Wf()
  {
    match step
    case Report(replicas, ready, updated, complete) =>
      && (complete ==> AllComplete(s.View(), s.pods))
      && t == WithVersion(s, Reported(s.Live(), s.View(), replicas, ready, updated, complete))
    case Rescaled(to) => t == WithVersion(s, Scaled(s.Live(), to))
    case _ => false
  }

  /**
    An operator write: the pass decides on it, and the compare-and-swap lets it through because the
    version the pass read is still the last. (A pass that writes nothing, loses the race or dies
    just finishes.)
   */
  ghost predicate Commits(s: System, step: Step, t: System)
    requires s.Wf()
  {
    && step.Commit? && step.p in s.passes && step.p.at == s.LastAt()
    && Permits(step.p.app, step.p.desired, s.Live().sts, step.p.f, step.w)
    && t == Committed(s, step.p, step.w)
  }

  /** The controller takes up a newer version, or time passes. */
  ghost predicate Advances(s: System, step: Step, t: System)
    requires s.Wf()
  {
    match step
    case AdvanceView(to) => s.viewAt <= to < |s.versions| && t == s.(viewAt := to)
    case Tick(time) => s.now <= time && t == s.(now := time)
    case _ => false
  }

  ghost predicate Next(policy: Policy, s: System, step: Step, t: System)
    requires s.Wf()
  {
    || PassMoves(policy, s, step, t)
    || Commits(s, step, t)
    || PodMoves(s, step, t)
    || OthersWrite(s, step, t)
    || Advances(s, step, t)
  }

  /** A fleet just created by the operator. */
  ghost predicate Init(s: System) {
    && |s.versions| == 1 && s.viewAt == 0 && s.pods == map[] && s.passes == {}
    && s.recent == {} && s.seen == {}
    && var v := s.versions[0];
       && v.writer == Creation && v.clean && v.era == 0 && v.current == v.Rev() && s.cleared == {v.Rev()}
       && v.sts.spec.partition == 0 && !v.sts.recreating && v.sts.settleUntil == None
       && v.sts.hash == Some(Fingerprint(v.sts.spec.template))
       && v.sts.status.observedGeneration <= v.sts.generation
  }

  ghost predicate StepAt(policy: Policy, run: seq<System>, steps: seq<Step>, i: nat)
    requires i < |steps| == |run| - 1 && run[i].Wf()
  {
    Next(policy, run[i], steps[i], run[i + 1])
  }

  /** Consecutive states of a run, each reached by the step beside it. */
  ghost predicate Run(policy: Policy, run: seq<System>, steps: seq<Step>) {
    && |run| == |steps| + 1
    && (forall i :: 0 <= i < |run| ==> run[i].Wf())
    && (forall i :: 0 <= i < |steps| ==> StepAt(policy, run, steps, i))
  }

  // ----- a pass of the protocol is a pass of the operator -----

  /** A pass that made those of its reads its branch calls for. */
  function AfterReads(
    policy: Policy, at: nat, v: Version, app: App, desired: Template, appVersion: string, r: Reads, gated: bool,
    start: int, saw: set<Revision>): Pass
  {
    var begun := Started(policy, at, v, start, app, desired, appVersion, r.paused);
    var checked := if r.census.Some? then AfterCensus(policy, v, begun, r.census.value, saw) else begun;
    var passed := if gated then AfterGate(v, checked, r.gate) else checked;
    var listed := if r.listing.Some? then AfterFleet(policy, v, passed, r.listing.value, r.answers) else passed;
    AfterStamp(AfterClock(listed, r.checkedAt), r.stampedAt)
  }

  /**
    A pass of the protocol commits exactly the write reconcileFleet decides on from its reads, however far apart in time
    they were made, whether or not it took the census or a listing; only a release needs gate 1 to have been read.
   */
  lemma CommitsWhatIsDecided(
    policy: Policy, at: nat, v: Version, app: App, desired: Template, appVersion: string, r: Reads, gated: bool,
    start: int, saw: set<Revision>, w: Write)
    ensures var p := AfterReads(policy, at, v, app, desired, appVersion, r, gated, start, saw);
            var f := FindingsOf(policy, app, desired, v.sts, r);
            && (gated ==> p.f == f)
            && (gated || w.kind != Release ==>
                  (Permits(p.app, p.desired, v.sts, p.f, w) <==>
                   Decide(app, desired, appVersion, v.sts, f).write == Some(w)))
  {
    ReadsGive(policy, at, v, app, desired, appVersion, r, gated, start, saw);
    var f := FindingsOf(policy, app, desired, v.sts, r);
    WritesIffPermitted(app, desired, appVersion, v.sts, f, w);
    if w.kind != Release {
      OnlyReleaseAsksGate(app, desired, v.sts, f, w);
    }
  }

  lemma ReadsGive(
    policy: Policy, at: nat, v: Version, app: App, desired: Template, appVersion: string, r: Reads, gated: bool,
    start: int, saw: set<Revision>)
    ensures var p := AfterReads(policy, at, v, app, desired, appVersion, r, gated, start, saw);
            var f := FindingsOf(policy, app, desired, v.sts, r);
            p.app == app && p.desired == desired && p.f == if gated then f else f.(gate := Wait)
  {
  }

  lemma OnlyReleaseAsksGate(app: App, desired: Template, existing: Sts, f: Findings, w: Write)
    requires w.kind != Release
    ensures Permits(app, desired, existing, f.(gate := Wait), w) <==> Permits(app, desired, existing, f, w)
  {
  }

  // ----- generations: what the controller's report means -----

  /**
    The versions' generations never fall, equal generations have equal specs, and the controller has
    never reported a generation newer than the one it works from.
   */
  ghost predicate Ordered(versions: seq<Version>, viewAt: nat)
    requires viewAt < |versions|
  {
    && (forall i, j :: 0 <= i <= j < |versions| ==> versions[i].sts.generation <= versions[j].sts.generation)
    && (forall i, j :: 0 <= i <= j < |versions| && versions[i].sts.generation == versions[j].sts.generation ==>
          versions[i].sts.spec == versions[j].sts.spec)
    && versions[|versions| - 1].sts.status.observedGeneration <= versions[viewAt].sts.generation
  }

  /** A version appended to an ordered history keeps it ordered, if its generation counts its spec changes. */
  lemma AppendKeepsOrder(versions: seq<Version>, viewAt: nat, v: Version)
    requires viewAt < |versions| && Ordered(versions, viewAt)
    requires var live := versions[|versions| - 1].sts;
             v.sts.generation == if v.sts.spec != live.spec then live.generation + 1 else live.generation
    requires v.sts.status.observedGeneration <= versions[viewAt].sts.generation
    ensures Ordered(versions + [v], viewAt)
  {
  }

  /** No write touches the status. */
  lemma WritesKeepStatus(app: App, desired: Template, existing: Sts, f: Findings, w: Write)
    requires Permits(app, desired, existing, f, w)
    ensures w.sts.status == existing.status
  {
  }

  /** A pass's own steps leave everything but the passes alone. */
  lemma PassMovesOnly(policy: Policy, s: System, step: Step, t: System)
    requires s.Wf() && PassMoves(policy, s, step, t)
    ensures t.Wf() && t == s.(passes := t.passes)
  {
  }

  /** A pod's steps leave everything but the pods alone. */
  lemma PodMovesOnly(s: System, step: Step, t: System)
    requires s.Wf() && PodMoves(s, step, t)
    ensures t.Wf() && t == s.(pods := t.pods, recent := t.recent, seen := t.seen)
  {
  }

  lemma CommitKeepsOrder(s: System, step: Step, t: System)
    requires s.Wf() && Commits(s, step, t) && Ordered(s.versions, s.viewAt)
    ensures t.Wf() && Ordered(t.versions, t.viewAt)
  {
    WritesKeepStatus(step.p.app, step.p.desired, s.Live().sts, step.p.f, step.w);
    AppendKeepsOrder(s.versions, s.viewAt, Written(s.Live(), step.w, step.p.f.stampedAt));
  }

  lemma OthersKeepOrder(s: System, step: Step, t: System)
    requires s.Wf() && OthersWrite(s, step, t) && Ordered(s.versions, s.viewAt)
    ensures t.Wf() && Ordered(t.versions, t.viewAt)
  {
    AppendKeepsOrder(s.versions, s.viewAt, t.versions[|s.versions|]);
  }

  lemma AdvancesKeepOrder(s: System, step: Step, t: System)
    requires s.Wf() && Advances(s, step, t) && Ordered(s.versions, s.viewAt)
    ensures t.Wf() && Ordered(t.versions, t.viewAt)
  {
  }

  lemma NextKeepsOrder(policy: Policy, s: System, step: Step, t: System)
    requires s.Wf() && Next(policy, s, step, t) && Ordered(s.versions, s.viewAt)
    ensures t.Wf() && Ordered(t.versions, t.viewAt)
  {
    if PassMoves(policy, s, step, t) {
      PassMovesOnly(policy, s, step, t);
    } else if Commits(s, step, t) {
      CommitKeepsOrder(s, step, t);
    } else if PodMoves(s, step, t) {
      PodMovesOnly(s, step, t);
    } else if OthersWrite(s, step, t) {
      OthersKeepOrder(s, step, t);
    } else {
      AdvancesKeepOrder(s, step, t);
    }
  }

  /**
    Once the live object's generation has been observed, every version the controller may still act on
    has the live spec.
   */
  lemma ObservedMeansCurrent(versions: seq<Version>, viewAt: nat, j: nat)
    requires viewAt <= j < |versions| && Ordered(versions, viewAt)
    requires var live := versions[|versions| - 1].sts; live.status.observedGeneration == live.generation
    ensures versions[j].sts.spec == versions[|versions| - 1].sts.spec
  {
  }
}

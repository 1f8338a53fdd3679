/** Building runs: what leads where, under which restrictions on the steps, in the larger moves of a rollout. */
module Reach {
  import opened Prelude
  import opened Compatibility
  import opened Census
  import opened Rollout
  import opened Protocol

  /**
    A restriction on the steps of a run: none; no template writes; no operator writes; template writes and releases
    that land soon after their clock reading; pods that fall only to replacement, with a gate cache
    that is no older than the last template write; pods created only with revisions the last
    template write brought together; or template writes that land on pods their census saw.
   */
  datatype Mode = Freely | Quietly | Idly | Promptly(delay: nat) | Cached | Knowingly | Counted

  predicate InstallsTemplate(step: Step) { step.Commit? && Installs(step.w.kind) }

  /** A write that sets a settle deadline. */
  predicate Stamps(step: Step) { step.Commit? && (step.w.kind == Freeze || step.w.kind == Release) }

  /** Pods fall only to replacement, and the scale stays. */
  predicate Undisturbed(s: System, step: Step) {
    match step
    case PodUnready(_) => false
    case PodGone(ord) => ord in s.pods && s.pods[ord].deleting
    case Rescaled(_) => false
    case Commit(p, w) => w.kind == Freeze || w.kind == Release
    case _ => true
  }

  /** Every pod the gate found was so at some moment of this history. */
  ghost predicate CachedSince(history: set<(nat, Pod)>, fleet: string, gate: map<nat, GateRead>) {
    forall ord: nat :: ord in gate && gate[ord].Found? ==>
      exists pod :: (ord, pod) in history && Shows(gate[ord].pod, fleet, ord, pod)
  }

  /** A pod is created only with a revision the last template write brought together. */
  predicate CreatesKnown(s: System, step: Step) {
    step.CreatePod? && s.Wf() ==> RevisionFor(s.View(), step.ord) in s.cleared
  }

  /** A template write lands on no pods but those its census saw. */
  predicate LandsCounted(s: System, step: Step) {
    step.Commit? && step.w.kind == Freeze ==> Revisions(s.pods) <= step.p.saw
  }

  ghost predicate Allows(mode: Mode, s: System, step: Step) {
    match mode
    case Freely => true
    case Quietly => !InstallsTemplate(step)
    case Idly => !step.Commit?
    case Promptly(delay) => Stamps(step) ==> s.now - step.p.f.stampedAt <= delay
    case Knowingly => CreatesKnown(s, step)
    case Counted => LandsCounted(s, step)
    case Cached => Undisturbed(s, step) && (step.ReadGate? ==> CachedSince(s.seen, step.p.app.fleet, step.gate))
  }

  // ----- runs -----

  /** A run from s to t within these restrictions. */
  ghost predicate LeadsBy(policy: Policy, mode: Mode, s: System, t: System, run: seq<System>, steps: seq<Step>) {
    && Run(policy, run, steps) && run[0] == s && run[|steps|] == t
    && forall i :: 0 <= i < |steps| ==> Allows(mode, run[i], steps[i])
  }

  ghost predicate Leads(policy: Policy, mode: Mode, s: System, t: System) {
    exists run, steps :: LeadsBy(policy, mode, s, t, run, steps)
  }

  lemma LeadsHere(policy: Policy, mode: Mode, s: System)
    requires s.Wf()
    ensures Leads(policy, mode, s, s)
  {
    assert LeadsBy(policy, mode, s, s, [s], []);
  }

  lemma LeadsOn(policy: Policy, mode: Mode, s: System, t: System, step: Step, u: System)
    requires Leads(policy, mode, s, t) && t.Wf() && Next(policy, t, step, u) && Allows(mode, t, step) && u.Wf()
    ensures Leads(policy, mode, s, u)
  {
    var run, steps :| LeadsBy(policy, mode, s, t, run, steps);
    ExtendRun(policy, run, steps, step, u);
    assert LeadsBy(policy, mode, s, u, run + [u], steps + [step]);
  }

  lemma ExtendRun(policy: Policy, run: seq<System>, steps: seq<Step>, step: Step, u: System)
    requires Run(policy, run, steps) && Next(policy, run[|steps|], step, u) && u.Wf()
    ensures Run(policy, run + [u], steps + [step])
  {
    var run', steps' := run + [u], steps + [step];
    forall i | 0 <= i < |steps'| ensures StepAt(policy, run', steps', i) {
      if i < |steps| {
        assert StepAt(policy, run, steps, i);
        assert run'[i] == run[i] && run'[i + 1] == run[i + 1] && steps'[i] == steps[i];
      }
    }
  }

  lemma {:induction false} LeadsAlong(policy: Policy, mode: Mode, s: System, run: seq<System>, steps: seq<Step>, k: nat)
    requires Run(policy, run, steps) && k <= |steps| && Leads(policy, mode, s, run[0])
    requires forall i :: 0 <= i < |steps| ==> Allows(mode, run[i], steps[i])
    ensures Leads(policy, mode, s, run[k])
  {
    if k == 0 {
    } else {
      LeadsAlong(policy, mode, s, run, steps, k - 1);
      assert StepAt(policy, run, steps, k - 1);
      LeadsOn(policy, mode, s, run[k - 1], steps[k - 1], run[k]);
    }
  }

  lemma LeadsTrans(policy: Policy, mode: Mode, s: System, t: System, u: System)
    requires Leads(policy, mode, s, t) && Leads(policy, mode, t, u)
    ensures Leads(policy, mode, s, u)
  {
    var run, steps :| LeadsBy(policy, mode, t, u, run, steps);
    LeadsAlong(policy, mode, s, run, steps, |steps|);
  }

  /** One more step at the end of a run, which keeps its place there. */
  lemma LeadsByStep(
    policy: Policy, mode: Mode, s: System, t: System, run: seq<System>, steps: seq<Step>, step: Step, u: System)
    requires LeadsBy(policy, mode, s, t, run, steps) && Next(policy, t, step, u) && Allows(mode, t, step) && u.Wf()
    ensures LeadsBy(policy, mode, s, u, run + [u], steps + [step])
  {
    ExtendRun(policy, run, steps, step, u);
  }

  lemma Snoc<T>(a: seq<T>, b: seq<T>, from: nat, to: nat)
    requires from <= to < |b|
    ensures a + b[from..to + 1] == (a + b[from..to]) + [b[to]]
  {
  }

  /** Two runs end to end; the second's steps keep their place after the first's. */
  lemma {:induction false} LeadsByConcat(
    policy: Policy, mode: Mode, s: System, t: System,
    run1: seq<System>, steps1: seq<Step>, run2: seq<System>, steps2: seq<Step>, k: nat)
    requires LeadsBy(policy, mode, s, t, run1, steps1) && Run(policy, run2, steps2) && run2[0] == t && k <= |steps2|
    requires forall i :: 0 <= i < |steps2| ==> Allows(mode, run2[i], steps2[i])
    ensures LeadsBy(policy, mode, s, run2[k], run1 + run2[1..k + 1], steps1 + steps2[0..k])
  {
    if k == 0 {
      assert run1 + run2[1..1] == run1 && steps1 + steps2[0..0] == steps1;
    } else {
      LeadsByConcat(policy, mode, s, t, run1, steps1, run2, steps2, k - 1);
      var run, steps := run1 + run2[1..k], steps1 + steps2[0..k - 1];
      assert StepAt(policy, run2, steps2, k - 1);
      LeadsByStep(policy, mode, s, run2[k - 1], run, steps, steps2[k - 1], run2[k]);
      Snoc(run1, run2, 1, k);
      Snoc(steps1, steps2, 0, k - 1);
    }
  }

  /** A run within tighter restrictions is a run within looser ones. */
  lemma LeadsLoosely(policy: Policy, tight: Mode, loose: Mode, s: System, t: System)
    requires Leads(policy, tight, s, t) && (loose.Freely? || (tight.Quietly? && loose.Counted?))
    ensures Leads(policy, loose, s, t)
  {
    var run, steps :| LeadsBy(policy, tight, s, t, run, steps);
    assert LeadsBy(policy, loose, s, t, run, steps);
  }

  // ----- pods -----

  /** Every ordinal's pod is there and ready, and nothing else is. */
  predicate Healthy(pods: map<nat, Pod>, n: nat) {
    && (forall ord: nat :: ord < n ==> ord in pods) && (forall ord :: ord in pods ==> ord < n)
    && forall ord :: ord in pods ==> pods[ord].ready && !pods[ord].deleting
  }

  function Up(rev: Revision, born: nat): Pod { Pod(rev, born, true, false) }

  /** All pods are lost. */
  lemma {:induction false} Empties(policy: Policy, mode: Mode, s: System) returns (t: System)
    requires s.Wf() && mode != Cached
    ensures Leads(policy, mode, s, t) && t == s.(pods := map[])
    decreases |s.pods|
  {
    LeadsHere(policy, mode, s);
    if s.pods == map[] {
      t := s;
    } else {
      var ord :| ord in s.pods;
      var gone := s.(pods := s.pods - {ord});
      LeadsOn(policy, mode, s, s, PodGone(ord), gone);
      assert |gone.pods.Keys| < |s.pods.Keys| by {
        assert gone.pods.Keys == s.pods.Keys - {ord};
      }
      t := Empties(policy, mode, gone);
      LeadsTrans(policy, mode, s, gone, t);
    }
  }

  /** A missing pod is created from the controller's copy and becomes ready. */
  lemma BringsUp(policy: Policy, mode: Mode, s: System, ord: nat) returns (t: System)
    requires s.Wf() && ord !in s.pods && ord < s.View().sts.spec.replicas
    requires mode == Knowingly ==> RevisionFor(s.View(), ord) in s.cleared
    ensures Leads(policy, mode, s, t) && t == s.(pods := t.pods, recent := t.recent, seen := t.seen)
    ensures t.pods == s.pods[ord := Up(RevisionFor(s.View(), ord), s.viewAt)] && s.seen <= t.seen
  {
    LeadsHere(policy, mode, s);
    var pod := Pod(RevisionFor(s.View(), ord), s.viewAt, false, false);
    var created := WithPod(s, ord, pod);
    LeadsOn(policy, mode, s, s, CreatePod(ord), created);
    t := WithPod(created, ord, pod.(ready := true));
    LeadsOn(policy, mode, s, created, Step.PodReady(ord), t);
    assert t.pods == s.pods[ord := pod.(ready := true)];
  }

  /** One pod is lost and comes back from the controller's copy. */
  lemma LosesPod(policy: Policy, mode: Mode, s: System, ord: nat) returns (t: System)
    requires s.Wf() && ord < s.View().sts.spec.replicas && mode != Cached
    requires mode == Knowingly ==> RevisionFor(s.View(), ord) in s.cleared
    ensures Leads(policy, mode, s, t) && t == s.(pods := t.pods, recent := t.recent, seen := t.seen)
    ensures t.pods == s.pods[ord := Up(RevisionFor(s.View(), ord), s.viewAt)]
  {
    LeadsHere(policy, mode, s);
    if ord in s.pods {
      var gone := s.(pods := s.pods - {ord});
      LeadsOn(policy, mode, s, s, PodGone(ord), gone);
      t := BringsUp(policy, mode, gone, ord);
      LeadsTrans(policy, mode, s, gone, t);
    } else {
      t := BringsUp(policy, mode, s, ord);
    }
  }

  /** An outdated pod is deleted, and comes back from the controller's copy. */
  lemma Replaces(policy: Policy, mode: Mode, s: System, ord: nat) returns (t: System)
    requires s.Wf() && ord in s.pods && ord < s.View().sts.spec.replicas && Outdated(s.View(), ord, s.pods[ord])
    requires mode == Knowingly ==> RevisionFor(s.View(), ord) in s.cleared
    ensures Leads(policy, mode, s, t) && t == s.(pods := t.pods, recent := t.recent, seen := t.seen)
    ensures t.pods == s.pods[ord := Up(RevisionFor(s.View(), ord), s.viewAt)] && s.seen <= t.seen
  {
    LeadsHere(policy, mode, s);
    var deleted := WithPod(s, ord, s.pods[ord].(deleting := true));
    LeadsOn(policy, mode, s, s, DeletePod(ord), deleted);
    var gone := deleted.(pods := deleted.pods - {ord});
    LeadsOn(policy, mode, s, deleted, PodGone(ord), gone);
    t := BringsUp(policy, mode, gone, ord);
    LeadsTrans(policy, mode, s, gone, t);
  }

  function Fleet(rev: Revision, born: nat, n: nat): (pods: map<nat, Pod>)
    ensures Healthy(pods, n) && forall ord :: ord in pods ==> pods[ord] == Up(rev, born)
  {
    if n == 0 then map[] else Fleet(rev, born, n - 1)[n - 1 := Up(rev, born)]
  }

  /** From nothing, every ordinal below the partition comes up with the current revision. */
  lemma {:induction false} Fills(policy: Policy, mode: Mode, s: System, n: nat) returns (t: System)
    requires s.Wf() && s.pods == map[] && n <= s.View().sts.spec.partition && n <= s.View().sts.spec.replicas
    requires mode == Knowingly ==> s.View().current in s.cleared
    ensures Leads(policy, mode, s, t) && t == s.(pods := t.pods, recent := t.recent, seen := t.seen)
    ensures t.pods == Fleet(s.View().current, s.viewAt, n)
  {
    if n == 0 {
      LeadsHere(policy, mode, s);
      t := s;
    } else {
      var u := Fills(policy, mode, s, n - 1);
      t := BringsUp(policy, mode, u, n - 1);
      LeadsTrans(policy, mode, s, u, t);
    }
  }

  // ----- listings -----

  function ItemOf(fleet: string, ord: nat, pod: Pod): (item: PodItem)
    ensures Shows(item, fleet, ord, pod) && item.ip != "" && item.running
  {
    PodItem(PodName(fleet, ord), true, pod.deleting, Some(pod.ready), "ip", true, pod.rev.template)
  }

  /** Any set of pods can be listed. */
  lemma {:induction false} SomeListing(fleet: string, pods: map<nat, Pod>) returns (items: seq<PodItem>, ords: seq<nat>)
    ensures ListsAs(items, ords, fleet, pods)
    decreases |pods|
  {
    if pods == map[] {
      items, ords := [], [];
    } else {
      var ord :| ord in pods;
      assert (pods - {ord}).Keys == pods.Keys - {ord};
      assert |(pods - {ord}).Keys| < |pods.Keys|;
      items, ords := SomeListing(fleet, pods - {ord});
      items, ords := items + [ItemOf(fleet, ord, pods[ord])], ords + [ord];
    }
  }

  predicate Reachable(items: seq<PodItem>) { forall i :: 0 <= i < |items| ==> items[i].ip != "" && items[i].running }

  predicate Idle(sample: Option<Sample>) { sample.Some? && sample.value.restoring == 0 }

  /** Some answers of a full fleet make the restoring gate pass. */
  ghost predicate Answerable(policy: Policy) {
    forall items: seq<PodItem>, fleet: string, n: nat :: FullFleet(items, fleet, n) && Reachable(items) ==>
      exists answers :: Idle(policy.observe(items, answers, fleet, n))
  }

  function Listing(fleet: string, pods: map<nat, Pod>, n: nat): (items: seq<PodItem>)
    requires Healthy(pods, n)
    ensures |items| == n
  {
    seq(n, i requires 0 <= i < n => ItemOf(fleet, i, pods[i]))
  }

  lemma ListingLists(fleet: string, pods: map<nat, Pod>, n: nat)
    requires Healthy(pods, n) && n >= 1
    ensures Lists(Listing(fleet, pods, n), fleet, pods) && FullFleet(Listing(fleet, pods, n), fleet, n)
  {
    var items, ords := Listing(fleet, pods, n), seq<nat>(n, i => i);
    forall ord: nat | ord < n ensures ord in ords && PodName(fleet, ord) in Names(items) {
      assert ords[ord] == ord && Names(items)[ord] == PodName(fleet, ord);
    }
    assert ListsAs(items, ords, fleet, pods);
  }

  lemma IdleFleet(policy: Policy, fleet: string, pods: map<nat, Pod>, n: nat)
    returns (items: seq<PodItem>, answers: seq<Response>)
    requires Healthy(pods, n) && n >= 1 && Answerable(policy)
    ensures Lists(items, fleet, pods) && Idle(policy.observe(items, answers, fleet, n))
  {
    items := Listing(fleet, pods, n);
    ListingLists(fleet, pods, n);
    assert FullFleet(items, fleet, n) && Reachable(items);
    answers :| Idle(policy.observe(items, answers, fleet, n));
  }

  // ----- the operator and the controller -----

  /** The live object is the operator's, its template is the hashed one, and no recreate is under way. */
  predicate Ours(s: System) {
    && s.Wf()
    && var sts := s.Live().sts;
       sts.hash == Some(Fingerprint(sts.spec.template)) && !sts.recreating && sts.controlled
  }

  /** The controller takes up the live version. */
  lemma TakesUp(policy: Policy, mode: Mode, s: System) returns (t: System)
    requires s.Wf()
    ensures Leads(policy, mode, s, t) && t == s.(viewAt := s.LastAt())
  {
    LeadsHere(policy, mode, s);
    t := s.(viewAt := s.LastAt());
    LeadsOn(policy, mode, s, s, AdvanceView(t.viewAt), t);
  }

  /** The controller has reported on the live generation, and the settle deadline is over. */
  predicate Rested(s: System) {
    && Ours(s) && s.viewAt == s.LastAt()
    && var sts := s.Live().sts;
       && sts.status.observedGeneration == sts.generation
       && sts.status.updateRevision == Some(sts.spec.template)
       && (sts.settleUntil.Some? ==> s.now >= sts.settleUntil.value)
  }

  function Later(deadline: Option<int>, now: int): int {
    if deadline.Some? && deadline.value > now then deadline.value else now
  }

  /** The controller reports on the live version, and takes up what it has written. */
  lemma Reports(policy: Policy, mode: Mode, s: System) returns (t: System)
    requires s.Wf() && s.viewAt == s.LastAt()
    ensures Leads(policy, mode, s, t) && t.Wf() && t.viewAt == t.LastAt()
    ensures t == s.(versions := s.versions + [t.Live()], viewAt := t.viewAt)
    ensures t.Live() == Reported(s.Live(), s.Live(), 0, 0, 0, false)
  {
    LeadsHere(policy, mode, s);
    var reported := WithVersion(s, Reported(s.Live(), s.View(), 0, 0, 0, false));
    LeadsOn(policy, mode, s, s, Report(0, 0, 0, false), reported);
    t := reported.(viewAt := reported.LastAt());
    LeadsOn(policy, mode, s, reported, AdvanceView(t.viewAt), t);
  }

  /** The controller reports on the live version, and the settle deadline passes, no later than it must. */
  lemma Rests(policy: Policy, mode: Mode, s: System) returns (t: System)
    requires Ours(s) && s.viewAt == s.LastAt()
    ensures Leads(policy, mode, s, t) && Rested(t) && t == s.(versions := t.versions, viewAt := t.viewAt, now := t.now)
    ensures t.Live().sts == s.Live().sts.(status := t.Live().sts.status)
    ensures t.Live().Rev() == s.Live().Rev() && t.Live().current == s.Live().current
    ensures t.now == Later(s.Live().sts.settleUntil, s.now)
  {
    var reported := Reports(policy, mode, s);
    t := reported.(now := Later(s.Live().sts.settleUntil, s.now));
    LeadsOn(policy, mode, s, reported, Tick(t.now), t);
  }

  /** A pass over the live version that may release, as far as it has read. */
  predicate Examining(s: System, p: Pass)
    requires s.Wf()
  {
    && p in s.passes && p.at == s.LastAt() && p.desired == s.Live().sts.spec.template && p.app.fleet == "fleet"
    && p.f.paused == Ok(true) && !p.f.refused && p.f.gate == Passed && p.f.checkedAt == p.f.stampedAt == s.now
  }

  /** A pass finds every released ordinal updated. */
  lemma PassesGate(policy: Policy, mode: Mode, s: System, gate: map<nat, GateRead>) returns (t: System, p: Pass)
    requires Rested(s) && (mode == Cached ==> CachedSince(s.seen, "fleet", gate))
    requires var spec := s.Live().sts.spec;
             && !policy.refused(spec.template.image, spec.template.image, false)
             && AllUpdated(gate, spec.template, spec.partition, spec.replicas)
    ensures Leads(policy, mode, s, t) && t == s.(passes := t.passes) && t.Wf() && Examining(t, p)
  {
    LeadsHere(policy, mode, s);
    var v, template := s.Live(), s.Live().sts.spec.template;
    var app := App("fleet", template.image, Rolling, false, None, None);
    var started := Started(policy, s.LastAt(), v, s.now, app, template, "", Ok(true));
    var begun := s.(passes := s.passes + {started});
    LeadsOn(policy, mode, s, s, Begin(app, template, "", Ok(true)), begun);
    p := AfterGate(v, started, gate);
    t := WithPass(begun, started, p);
    LeadsOn(policy, mode, s, begun, ReadGate(started, gate), t);
  }

  /** Its census finds the whole fleet idle. */
  lemma ListsFleet(policy: Policy, mode: Mode, s: System, t: System, p: Pass) returns (u: System, q: Pass)
    requires t.Wf() && Leads(policy, mode, s, t) && Answerable(policy) && Examining(t, p)
    requires Healthy(t.pods, t.Live().sts.spec.replicas) && t.Live().sts.spec.replicas >= 1
    ensures Leads(policy, mode, s, u) && u == t.(passes := u.passes) && u.Wf() && Examining(u, q) && FleetSettled(q.f)
  {
    var items, answers := IdleFleet(policy, "fleet", t.pods, t.Live().sts.spec.replicas);
    q := AfterFleet(policy, t.Live(), p, items, answers);
    u := WithPass(t, p, q);
    LeadsOn(policy, mode, s, t, ReadFleet(p, items, answers), u);
  }

  /** A report, the wait, and both gates: as soon as the deadline lets it, a pass is ready to release. */
  lemma PassesGates(policy: Policy, mode: Mode, s: System, gate: map<nat, GateRead>) returns (t: System, p: Pass)
    requires Ours(s) && s.viewAt == s.LastAt() && Answerable(policy)
    requires mode == Cached ==> CachedSince(s.seen, "fleet", gate)
    requires var spec := s.Live().sts.spec;
             && !policy.refused(spec.template.image, spec.template.image, false)
             && Healthy(s.pods, spec.replicas) && spec.replicas >= 1
             && AllUpdated(gate, spec.template, spec.partition, spec.replicas)
    ensures Leads(policy, mode, s, t) && Rested(t) && Examining(t, p) && FleetSettled(p.f)
    ensures t == s.(versions := t.versions, passes := t.passes, viewAt := t.viewAt, now := t.now)
    ensures t.Live().sts == s.Live().sts.(status := t.Live().sts.status)
    ensures t.Live().Rev() == s.Live().Rev() && t.Live().current == s.Live().current
    ensures t.now == Later(s.Live().sts.settleUntil, s.now)
  {
    var rested := Rests(policy, mode, s);
    var examined, q := PassesGate(policy, mode, rested, gate);
    LeadsTrans(policy, mode, s, rested, examined);
    t, p := ListsFleet(policy, mode, s, examined, q);
  }

  /** The version after a release. */
  ghost predicate Released(v: Version, w: Version) {
    && w.Rev() == v.Rev() && w.current == v.current
    && w.sts.spec == v.sts.spec.(partition := w.sts.spec.partition)
    && w.sts.spec.partition == v.sts.spec.partition - 1
  }

  /** And it releases the next ordinal. */
  lemma TakesRelease(policy: Policy, mode: Mode, s: System, t: System, p: Pass) returns (u: System)
    requires Rested(t) && Leads(policy, mode, s, t) && Examining(t, p) && FleetSettled(p.f) && !mode.Idly?
    requires 0 < t.Live().sts.spec.partition <= t.Live().sts.spec.replicas
    ensures Ours(u) && Leads(policy, mode, s, u) && u.viewAt == t.viewAt && u.now == t.now
    ensures u.pods == t.pods && u.seen == t.seen && u.cleared == t.cleared && Released(t.Live(), u.Live())
    ensures u == Committed(t, p, Write(Release, ReleaseNext(t.Live().sts, p.f.stampedAt)))
  {
    var w := Write(Release, ReleaseNext(t.Live().sts, p.f.stampedAt));
    u := Committed(t, p, w);
    LeadsOn(policy, mode, s, t, Commit(p, w), u);
  }

  /** From one release or template write to the next release: the gates, the write, and its uptake. */
  lemma ReleasesNext(policy: Policy, mode: Mode, s: System, gate: map<nat, GateRead>) returns (u: System)
    requires Ours(s) && s.viewAt == s.LastAt() && !mode.Idly? && Answerable(policy)
    requires mode == Cached ==> CachedSince(s.seen, "fleet", gate)
    requires var spec := s.Live().sts.spec;
             && !policy.refused(spec.template.image, spec.template.image, false)
             && Healthy(s.pods, spec.replicas) && 0 < spec.partition <= spec.replicas
             && AllUpdated(gate, spec.template, spec.partition, spec.replicas)
    ensures Ours(u) && Leads(policy, mode, s, u) && u.viewAt == u.LastAt()
    ensures u.pods == s.pods && u.seen == s.seen && u.cleared == s.cleared && Released(s.Live(), u.Live())
  {
    var ready, p := PassesGates(policy, mode, s, gate);
    var released := TakesRelease(policy, mode, s, ready, p);
    u := TakesUp(policy, mode, released);
    LeadsTrans(policy, mode, s, released, u);
  }

  /** A pass over the live version that may install a template. */
  predicate Proposing(s: System, p: Pass, desired: Template)
    requires s.Wf()
  {
    && p in s.passes && p.at == s.LastAt() && p.desired == desired && p.app.strategy == Rolling
    && p.f.paused == Ok(true) && !p.f.refused && p.f.hazard == Ok(false) && p.f.stampedAt == s.now
  }

  /** The template and every live pod can share a fleet with the desired template, and the change is not refused. */
  predicate Welcome(policy: Policy, s: System, desired: Template)
    requires s.Wf()
  {
    && policy.compatible(s.Live().sts.spec.template, desired)
    && !policy.refused(s.Live().sts.spec.template.image, desired.image, false)
    && forall ord :: ord in s.pods ==> policy.compatible(s.pods[ord].rev.template, desired)
  }

  lemma ListingClears(
    policy: Policy, items: seq<PodItem>, ords: seq<nat>, fleet: string, pods: map<nat, Pod>, desired: Template)
    requires ListsAs(items, ords, fleet, pods)
    requires forall ord :: ord in pods ==> policy.compatible(pods[ord].rev.template, desired)
    ensures !LivePodBreaks(policy, items, desired)
  {
    forall i | 0 <= i < |items| ensures policy.compatible(items[i].template, desired) {
      assert Shows(items[i], fleet, ords[i], pods[ords[i]]);
    }
  }

  /** A pass checks a new template against the live one and every live pod. */
  lemma ChecksFleet(policy: Policy, mode: Mode, s: System, desired: Template) returns (t: System, p: Pass)
    requires s.Wf() && Welcome(policy, s, desired)
    ensures Leads(policy, mode, s, t) && t == s.(passes := t.passes) && t.Wf() && Proposing(t, p, desired)
    ensures p.saw == Revisions(s.pods)
  {
    LeadsHere(policy, mode, s);
    var app := App("fleet", desired.image, Rolling, false, None, None);
    var started := Started(policy, s.LastAt(), s.Live(), s.now, app, desired, "", Ok(true));
    var begun := s.(passes := s.passes + {started});
    LeadsOn(policy, mode, s, s, Begin(app, desired, "", Ok(true)), begun);
    var items, ords := SomeListing("fleet", s.pods);
    ListingClears(policy, items, ords, "fleet", s.pods, desired);
    p := AfterCensus(policy, s.Live(), started, items, Revisions(s.pods));
    t := WithPass(begun, started, p);
    LeadsOn(policy, mode, s, begun, ReadCensus(started, items), t);
  }

  /** The version after a template write. */
  ghost predicate Frozen(v: Version, w: Version, desired: Template) {
    && w.Rev() == Revision(desired, v.era + 1) && w.current == v.current
    && w.sts.spec == Spec(desired, v.sts.spec.replicas, v.sts.spec.replicas)
  }

  /** And it installs that template, with nothing released. */
  lemma TakesFreeze(policy: Policy, mode: Mode, s: System, t: System, p: Pass, desired: Template) returns (u: System)
    requires Ours(t) && Leads(policy, mode, s, t) && t.Live().sts.spec.template != desired
    requires p in t.passes && p.at == t.LastAt() && p.desired == desired && p.app.strategy == Rolling
    requires p.f.paused == Ok(true) && !p.f.refused && p.f.hazard == Ok(false)
    requires !mode.Quietly? && !mode.Idly? && (mode.Promptly? ==> t.now - p.f.stampedAt <= mode.delay)
    requires mode.Counted? ==> Revisions(t.pods) <= p.saw
    ensures Ours(u) && Leads(policy, mode, s, u) && u.viewAt == t.viewAt && u.now == t.now
    ensures u.pods == t.pods && u.seen == Shown(t.pods) && Frozen(t.Live(), u.Live(), desired) && u.View() == t.View()
    ensures u == Committed(t, p, Write(Freeze, FreezeTemplate(t.Live().sts, desired, p.f.stampedAt)))
  {
    var w := Write(Freeze, FreezeTemplate(t.Live().sts, desired, p.f.stampedAt));
    u := Committed(t, p, w);
    LeadsOn(policy, mode, s, t, Commit(p, w), u);
  }

  /** A checked template write, the controller keeping its copy. */
  lemma InstallsChecked(policy: Policy, mode: Mode, s: System, desired: Template) returns (u: System)
    requires Ours(s) && Welcome(policy, s, desired) && s.Live().sts.spec.template != desired
    requires !mode.Quietly? && !mode.Idly?
    ensures Ours(u) && Leads(policy, mode, s, u) && u.viewAt == s.viewAt && u.now == s.now
    ensures u.pods == s.pods && u.seen == Shown(s.pods) && Frozen(s.Live(), u.Live(), desired) && u.View() == s.View()
    ensures Revisions(s.pods) + {s.Live().Rev(), u.Live().Rev()} <= u.cleared
  {
    var t, p := ChecksFleet(policy, mode, s, desired);
    u := TakesFreeze(policy, mode, s, t, p, desired);
  }

  // ----- a recreate -----

  /** A fleet of n just created with this template. */
  function Created(template: Template, n: nat): System {
    var sts := Sts(Spec(template, n, 0), Some(Fingerprint(template)), false, None, 0, Status(0, None, 0, 0, 0), true);
    var rev := Revision(template, 0);
    System([Version(sts, 0, rev, Creation, 0, true)], 0, map[], {}, 0, {rev}, {}, {})
  }

  /** A fleet of n whose pods are not up yet, taken up by the controller. */
  predicate Awaiting(s: System, n: nat) {
    Ours(s) && s.viewAt == s.LastAt() && s.pods == map[] && s.Live().sts.spec.replicas == n
  }

  lemma EmptyListing(fleet: string)
    ensures Lists([], fleet, map[])
  {
    var ords: seq<nat> := [];
    assert ListsAs([], ords, fleet, map[]);
  }

  function Recreating(desired: Template, n: nat): App { App("fleet", desired.image, Recreate, false, Some(n), None) }

  /** A pass that wants the template by Recreate drains the fleet first. */
  lemma Drains(policy: Policy, s: System, desired: Template, n: nat) returns (t: System)
    requires Awaiting(s, n) && n >= 1 && s.Live().sts.spec.template != desired
    requires !policy.refused(s.Live().sts.spec.template.image, desired.image, true)
    ensures Leads(policy, Freely, s, t) && t.Wf() && t.pods == map[]
    ensures t.Live().sts == Stored(s.Live().sts, DrainFleet(s.Live().sts))
    ensures t.Live().era == s.Live().era && t.Live().current == s.Live().current && t.View() == s.View()
  {
    LeadsHere(policy, Freely, s);
    var app := Recreating(desired, n);
    var p := Started(policy, s.LastAt(), s.Live(), s.now, app, desired, "", Ok(true));
    var begun := s.(passes := s.passes + {p});
    LeadsOn(policy, Freely, s, s, Begin(app, desired, "", Ok(true)), begun);
    EmptyListing("fleet");
    var q := AfterCensus(policy, s.Live(), p, [], Revisions(s.pods));
    var checked := WithPass(begun, p, q);
    LeadsOn(policy, Freely, s, begun, ReadCensus(p, []), checked);
    var w := Write(Drain, DrainFleet(s.Live().sts));
    t := Committed(checked, q, w);
    LeadsOn(policy, Freely, s, checked, Commit(q, w), t);
  }

  /** The controller reports the stopped fleet. */
  lemma ReportsStopped(policy: Policy, s: System) returns (t: System)
    requires s.Wf() && s.pods == map[]
    ensures Leads(policy, Freely, s, t) && t.Wf() && t.pods == map[]
    ensures t.Live().era == s.Live().era && t.Live().current == s.Live().current
    ensures t.Live().sts == s.Live().sts.(status := t.Live().sts.status)
    ensures t.Live().sts.status.observedGeneration == t.Live().sts.generation && t.Live().sts.status.replicas == 0
  {
    var taken := TakesUp(policy, Freely, s);
    t := WithVersion(taken, Reported(taken.Live(), taken.View(), 0, 0, 0, false));
    LeadsOn(policy, Freely, s, taken, Report(0, 0, 0, false), t);
  }

  /** And the next pass installs the template. */
  lemma Restarts(policy: Policy, s: System, desired: Template, n: nat) returns (t: System)
    requires s.Wf() && s.pods == map[] && !policy.refused(s.Live().sts.spec.template.image, desired.image, true)
    requires var sts := s.Live().sts;
             && sts.spec.replicas == 0 && sts.recreating && sts.controlled
             && sts.status.observedGeneration == sts.generation && sts.status.replicas == 0
    ensures Leads(policy, Freely, s, t) && Awaiting(t, n)
    ensures t.Live().Rev() == Revision(desired, s.Live().era + 1) && t.Live().current == s.Live().current
  {
    LeadsHere(policy, Freely, s);
    var app := Recreating(desired, n);
    var p := Started(policy, s.LastAt(), s.Live(), s.now, app, desired, "", Ok(true));
    var begun := s.(passes := s.passes + {p});
    LeadsOn(policy, Freely, s, s, Begin(app, desired, "", Ok(true)), begun);
    EmptyListing("fleet");
    var q := AfterFleet(policy, s.Live(), p, [], []);
    var listed := WithPass(begun, p, q);
    LeadsOn(policy, Freely, s, begun, ReadFleet(p, [], []), listed);
    var w := Write(Restart, RestartFleet(s.Live().sts, desired, n));
    var restarted := Committed(listed, q, w);
    LeadsOn(policy, Freely, s, listed, Commit(q, w), restarted);
    t := TakesUp(policy, Freely, restarted);
    LeadsTrans(policy, Freely, s, restarted, t);
  }

  /** A whole recreate. */
  lemma Recreates(policy: Policy, s: System, desired: Template, n: nat) returns (t: System)
    requires Awaiting(s, n) && n >= 1 && s.Live().sts.spec.template != desired
    requires !policy.refused(s.Live().sts.spec.template.image, desired.image, true)
    ensures Leads(policy, Freely, s, t) && Awaiting(t, n)
    ensures t.Live().Rev() == Revision(desired, s.Live().era + 1) && t.Live().current == s.Live().current
  {
    var drained := Drains(policy, s, desired, n);
    var stopped := ReportsStopped(policy, drained);
    LeadsTrans(policy, Freely, s, drained, stopped);
    t := Restarts(policy, stopped, desired, n);
    LeadsTrans(policy, Freely, s, stopped, t);
  }

  // ----- celld's census can be answered -----

  /** A pod with nothing to restore. */
  const IDLE: Response :=
    Response(200, 0, Some(map["occupied" := JInt(0), "restoring" := JInt(0), "shedding" := JNull]))

  lemma IdleObserves()
    ensures Accept(IDLE) == Ok(PodState(0, 0, 0, None, None))
  {
  }

  lemma {:induction false} ZeroSum(c: seq<int>, n: nat)
    requires n <= |c| && AllZero(c)
    ensures SumTo(c, n) == 0
  {
    if n == 0 {
    } else {
      ZeroSum(c, n - 1);
    }
  }

  lemma UniformPolls(items: seq<PodItem>, answers: seq<Response>, answer: Response, state: PodState)
    requires Reachable(items) && |answers| == |items| && (forall i :: 0 <= i < |items| ==> !items[i].deleting)
    requires Accept(answer) == Ok(state) && forall i :: 0 <= i < |answers| ==> answers[i] == answer
    ensures forall i :: 0 <= i < |items| ==> Polls(items, answers)[i] == Ok(state)
  {
  }

  /** A full, reachable fleet whose pods all answer alike, with nothing to restore, is observed so. */
  lemma UniformSample(
    items: seq<PodItem>, answers: seq<Response>, fleet: string, n: nat, answer: Response, state: PodState)
    requires FullFleet(items, fleet, n) && Reachable(items) && |answers| == |items|
    requires Accept(answer) == Ok(state) && state.restoring == 0
    requires forall i :: 0 <= i < |answers| ==> answers[i] == answer
    ensures var sample := ObserveFleet(items, answers, fleet, n);
            Idle(sample) && forall name :: name in sample.value.states ==> sample.value.states[name] == state
  {
    UniformPolls(items, answers, answer, state);
    UniformCover(Names(items), Polls(items, answers), state);
  }

  lemma UniformCover(names: seq<string>, polls: seq<Result<PodState>>, state: PodState)
    requires |names| == |polls| && state.restoring == 0 && forall i :: 0 <= i < |polls| ==> polls[i] == Ok(state)
    ensures AllAnswered(polls) && Sum(Counters(polls)) == 0
    ensures forall name :: name in SampleOf(names, polls) ==> SampleOf(names, polls)[name] == state
  {
    assert AllZero(Counters(polls));
    ZeroSum(Counters(polls), |polls|);
  }

  lemma CelldAnswerable()
    ensures Answerable(CelldPolicy())
  {
    forall items: seq<PodItem>, fleet: string, n: nat | FullFleet(items, fleet, n) && Reachable(items)
      ensures exists answers :: Idle(CelldPolicy().observe(items, answers, fleet, n))
    {
      var answers := seq(|items|, i => IDLE);
      IdleObserves();
      UniformSample(items, answers, fleet, n, IDLE, PodState(0, 0, 0, None, None));
      assert Idle(CelldPolicy().observe(items, answers, fleet, n));
    }
  }
}

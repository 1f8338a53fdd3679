/**
  For a fixed spec, the writes still to be made are determined by the object alone. Whatever passes find, in
  whatever order, with whatever conflicts, their writes follow that plan; and every pass
  that finds the environment cooperating takes the next step of it.
 */
module Convergence {
  import opened Prelude
  import opened Compatibility
  import opened Census
  import opened Rollout

  function Releases(n: nat): (kinds: seq<Kind>)
    ensures |kinds| == n && forall i :: 0 <= i < n ==> kinds[i] == Release
  {
    seq(n, i => Release)
  }

  function ScaleWrites(app: App, sts: Sts): seq<Kind> { if ScaleIsOurs(app, sts) then [Rescale] else [] }

  predicate Recreates(app: App, sts: Sts, desired: Template) {
    sts.recreating || (TemplateChanged(sts, desired) && app.strategy == Recreate)
  }

  /** The writes from here to Ready. */
  function Plan(app: App, desired: Template, sts: Sts): seq<Kind> {
    var partition, replicas := sts.spec.partition, sts.spec.replicas;
    if Recreates(app, sts, desired) then (if replicas != 0 then [Drain, Restart] else [Restart])
    else if TemplateChanged(sts, desired) then [Freeze] + Releases(replicas) + ScaleWrites(app, sts)
    else if partition > replicas then [Clamp] + Releases(replicas) + ScaleWrites(app, sts)
    else Releases(partition) + ScaleWrites(app, sts)
  }

  /** The scale the fleet ends up with. */
  function FinalReplicas(app: App, desired: Template, sts: Sts): nat {
    if Recreates(app, sts, desired) || ScaleIsOurs(app, sts) then DesiredReplicas(app) else sts.spec.replicas
  }

  /** One pass: the object it read, what it found, and whether its write, if any, got past the compare-and-swap. */
  datatype Round = Round(existing: Sts, f: Findings, landed: bool)

  function Decided(app: App, desired: Template, appVersion: string, r: Round): Rollout.Decision {
    Decide(app, desired, appVersion, r.existing, r.f)
  }

  predicate Lands(app: App, desired: Template, appVersion: string, r: Round) {
    r.landed && Decided(app, desired, appVersion, r).write.Some?
  }

  function After(app: App, desired: Template, appVersion: string, r: Round): Sts {
    if Lands(app, desired, appVersion, r) then Stored(r.existing, Decided(app, desired, appVersion, r).write.value.sts)
    else r.existing
  }

  /** Whatever a pass finds, the write it makes is the first of the plan and leaves the rest of it. */
  lemma WriteFollowsPlan(app: App, desired: Template, existing: Sts, f: Findings, w: Write)
    requires Permits(app, desired, existing, f, w)
    ensures Plan(app, desired, existing) == [w.kind] + Plan(app, desired, Stored(existing, w.sts))
    ensures FinalReplicas(app, desired, Stored(existing, w.sts)) == FinalReplicas(app, desired, existing)
  {
  }

  /** The kind of the write the round stored, if any. */
  function Makes(app: App, desired: Template, appVersion: string, r: Round): seq<Kind> {
    if Lands(app, desired, appVersion, r) then [Decided(app, desired, appVersion, r).write.value.kind] else []
  }

  lemma RoundFollowsPlan(app: App, desired: Template, appVersion: string, r: Round)
    ensures Plan(app, desired, r.existing)
         == Makes(app, desired, appVersion, r) + Plan(app, desired, After(app, desired, appVersion, r))
    ensures FinalReplicas(app, desired, After(app, desired, appVersion, r)) == FinalReplicas(app, desired, r.existing)
  {
    if Lands(app, desired, appVersion, r) {
      var w := Decided(app, desired, appVersion, r).write.value;
      WritesIffPermitted(app, desired, appVersion, r.existing, r.f, w);
      WriteFollowsPlan(app, desired, r.existing, r.f, w);
    }
  }

  // ----- histories -----

  /** Between passes only the controller writes, and only its status. */
  predicate History(app: App, desired: Template, appVersion: string, rounds: seq<Round>) {
    forall i {:trigger rounds[i]} :: 0 < i < |rounds| ==>
      rounds[i].existing == After(app, desired, appVersion, rounds[i - 1]).(status := rounds[i].existing.status)
  }

  /** The kinds of the writes that landed in the first k rounds. */
  function Written(app: App, desired: Template, appVersion: string, rounds: seq<Round>, k: nat): seq<Kind>
    requires k <= |rounds|
  {
    if k == 0 then []
    else Written(app, desired, appVersion, rounds, k - 1) + Makes(app, desired, appVersion, rounds[k - 1])
  }

  /** From one round to the next the remaining plan does not change. */
  lemma NextStartsThere(app: App, desired: Template, appVersion: string, rounds: seq<Round>, k: nat)
    requires History(app, desired, appVersion, rounds) && 0 < k < |rounds|
    ensures Plan(app, desired, rounds[k].existing) == Plan(app, desired, After(app, desired, appVersion, rounds[k - 1]))
    ensures FinalReplicas(app, desired, rounds[k].existing)
         == FinalReplicas(app, desired, After(app, desired, appVersion, rounds[k - 1]))
  {
  }

  lemma Regroup(written: seq<Kind>, made: seq<Kind>, rest: seq<Kind>, before: seq<Kind>, plan: seq<Kind>)
    requires written + before == plan && before == made + rest
    ensures (written + made) + rest == plan
  {
  }

  /** Every history's writes, in order, and then the plan of the object it reached, are the plan it started with. */
  lemma {:induction false} HistoryFollowsPlan(
    app: App, desired: Template, appVersion: string, rounds: seq<Round>, k: nat)
    requires History(app, desired, appVersion, rounds) && k < |rounds|
    ensures Written(app, desired, appVersion, rounds, k) + Plan(app, desired, rounds[k].existing)
         == Plan(app, desired, rounds[0].existing)
    ensures FinalReplicas(app, desired, rounds[k].existing) == FinalReplicas(app, desired, rounds[0].existing)
  {
    if k == 0 {
    } else {
      HistoryFollowsPlan(app, desired, appVersion, rounds, k - 1);
      var r := rounds[k - 1];
      RoundFollowsPlan(app, desired, appVersion, r);
      NextStartsThere(app, desired, appVersion, rounds, k);
      Regroup(
        Written(app, desired, appVersion, rounds, k - 1), Makes(app, desired, appVersion, r),
        Plan(app, desired, rounds[k].existing), Plan(app, desired, r.existing), Plan(app, desired, rounds[0].existing));
    }
  }

  // ----- progress -----

  /**
    What the next step of the plan waits for: a release for the deadline, the released pods and an idle fleet; a restart
    for the pods to be gone; Ready for the controller to converge and a fleet that serves the version. The
    other writes wait for nothing, so an unhealthy fleet can be drained or given a template.
   */
  predicate Ripe(app: App, desired: Template, appVersion: string, sts: Sts, f: Findings) {
    var plan := Plan(app, desired, sts);
    if plan == [] then
      && StatusConverged(sts)
      && if sts.spec.replicas == 0 then f.sample.None?
          else FleetSettled(f) && Serving(f.sample.value.states, appVersion)
    else
      match plan[0]
      case Release =>
        && sts.status.observedGeneration == sts.generation && sts.status.updateRevision.Some?
        && !Settling(sts, f) && f.gate == Passed && FleetSettled(f)
      case Restart =>
        sts.status.observedGeneration == sts.generation && sts.status.replicas == 0 && f.listed == Some(0)
      case _ => true
  }

  /** A template change is checked, and under Rolling found safe; under Recreate it may be as hazardous as it likes. */
  predicate Cleared(app: App, desired: Template, sts: Sts, f: Findings) {
    TemplateChanged(sts, desired) && !sts.recreating ==> f.hazard.Ok? && (app.strategy == Rolling ==> !f.hazard.value)
  }

  /** A pass in a cooperating environment: its write, if it makes one, lands, and nothing it needs is held back. */
  predicate Cooperates(app: App, desired: Template, appVersion: string, r: Round) {
    && r.landed && r.existing.controlled && !r.f.refused
    && (MustPause(app, r.existing, desired) ==> r.f.paused == Ok(true))
    && Cleared(app, desired, r.existing, r.f) && Ripe(app, desired, appVersion, r.existing, r.f)
  }

  predicate ReportsReady(app: App, desired: Template, appVersion: string, r: Round) {
    Completes(Decided(app, desired, appVersion, r))
  }

  /**
    In a cooperating environment a pass takes the next step of the plan; with none left it reports Ready, unless
    the fleet is empty.
   */
  lemma CooperationProgresses(app: App, desired: Template, appVersion: string, r: Round)
    requires Cooperates(app, desired, appVersion, r)
    ensures Lands(app, desired, appVersion, r) <==> Plan(app, desired, r.existing) != []
    ensures ReportsReady(app, desired, appVersion, r) <==>
              Plan(app, desired, r.existing) == [] && r.existing.spec.replicas > 0
  {
  }

  /** With the plan finished, no pass writes, whatever it finds. */
  lemma FinishedWritesNothing(app: App, desired: Template, appVersion: string, r: Round)
    requires Plan(app, desired, r.existing) == []
    ensures Decided(app, desired, appVersion, r).write.None?
    ensures r.existing.spec.replicas == FinalReplicas(app, desired, r.existing)
  {
  }

  /** A pass that reports Ready found the plan finished. */
  lemma ReadyMeansFinished(app: App, desired: Template, appVersion: string, r: Round)
    requires ReportsReady(app, desired, appVersion, r)
    ensures Plan(app, desired, r.existing) == []
  {
  }

  /** The number of cooperating rounds among the first k. */
  function Helped(app: App, desired: Template, appVersion: string, rounds: seq<Round>, k: nat): nat
    requires k <= |rounds|
  {
    if k == 0 then 0
    else
      Helped(app, desired, appVersion, rounds, k - 1)
      + if Cooperates(app, desired, appVersion, rounds[k - 1]) then 1 else 0
  }

  lemma RoundShortensPlan(app: App, desired: Template, appVersion: string, r: Round)
    ensures |Plan(app, desired, After(app, desired, appVersion, r))| <= |Plan(app, desired, r.existing)|
    ensures Cooperates(app, desired, appVersion, r) && Plan(app, desired, r.existing) != [] ==>
              |Plan(app, desired, After(app, desired, appVersion, r))| == |Plan(app, desired, r.existing)| - 1
  {
    RoundFollowsPlan(app, desired, appVersion, r);
    if Cooperates(app, desired, appVersion, r) {
      CooperationProgresses(app, desired, appVersion, r);
    }
  }

  lemma {:induction false} HelpShortensPlan(app: App, desired: Template, appVersion: string, rounds: seq<Round>, k: nat)
    requires History(app, desired, appVersion, rounds) && k < |rounds|
    ensures var left := |Plan(app, desired, rounds[k].existing)|;
            || left == 0
            || left + Helped(app, desired, appVersion, rounds, k) <= |Plan(app, desired, rounds[0].existing)|
  {
    if k == 0 {
    } else {
      HelpShortensPlan(app, desired, appVersion, rounds, k - 1);
      RoundShortensPlan(app, desired, appVersion, rounds[k - 1]);
      NextStartsThere(app, desired, appVersion, rounds, k);
    }
  }

  /**
    Convergence. Once as many rounds have cooperated as the plan has writes, in whatever order and among
    whatever others, exactly the planned writes have been made; no pass writes again; and
    each cooperating pass reports Ready if and only if the final scale is at least one.
   */
  lemma Converges(app: App, desired: Template, appVersion: string, rounds: seq<Round>, k: nat)
    requires History(app, desired, appVersion, rounds) && k < |rounds|
    requires Helped(app, desired, appVersion, rounds, k) >= |Plan(app, desired, rounds[0].existing)|
    ensures Written(app, desired, appVersion, rounds, k) == Plan(app, desired, rounds[0].existing)
    ensures Decided(app, desired, appVersion, rounds[k]).write.None?
    ensures Cooperates(app, desired, appVersion, rounds[k]) ==>
              (ReportsReady(app, desired, appVersion, rounds[k]) <==>
                  FinalReplicas(app, desired, rounds[0].existing) > 0)
  {
    HelpShortensPlan(app, desired, appVersion, rounds, k);
    HistoryFollowsPlan(app, desired, appVersion, rounds, k);
    FinishedWritesNothing(app, desired, appVersion, rounds[k]);
    if Cooperates(app, desired, appVersion, rounds[k]) {
      CooperationProgresses(app, desired, appVersion, rounds[k]);
    }
  }

  /** Ready is a fixpoint: from a pass that reports it, no later pass of the history writes. */
  lemma ReadyIsFixpoint(app: App, desired: Template, appVersion: string, rounds: seq<Round>, i: nat, k: nat)
    requires History(app, desired, appVersion, rounds) && i <= k < |rounds|
    requires ReportsReady(app, desired, appVersion, rounds[i])
    ensures Decided(app, desired, appVersion, rounds[k]).write.None?
  {
    var rest := rounds[i..];
    ReadyMeansFinished(app, desired, appVersion, rounds[i]);
    HistoryFollowsPlan(app, desired, appVersion, rest, k - i);
    FinishedWritesNothing(app, desired, appVersion, rounds[k]);
  }
}

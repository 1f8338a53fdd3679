/** The fleet census: one pod's /state answer, the concurrent sweep, and the all-ordinals check. */
module Census {
  import opened Prelude
  import opened GoText
  import opened Compatibility

  // ----- /state -----

  datatype Deployment = Deployment(version: string, generation: int, draining: nat, swapping: int)

  /** A decoded JSON value, as far as /state uses it. */
  datatype Json = JNull | JInt(n: int) | JText(s: string) | JDeployment(d: Deployment) | JOther

  datatype PodState = PodState(
    occupied: int, evicting: int, restoring: int, shedding: Option<string>, deployment: Option<Deployment>)

  /** What came back from the pod; `fields` is None when the body is not a JSON object. */
  datatype Response = Unreachable | Response(code: int, length: nat, fields: Option<map<string, Json>>)

  const MAX_STATE_BYTES: nat := 4 * 1024 * 1024

  const REQUIRED: seq<string> := ["occupied", "restoring", "shedding"]

  function Lookup(fields: map<string, Json>, key: string): Json {
    if key in fields then fields[key] else JNull
  }

  predicate IsInt64(v: Json) { v.JNull? || (v.JInt? && -MAX_INT64 - 1 <= v.n <= MAX_INT64) }

  /** The diagnostic fields, whose values no decision reads but whose types must still decode. */
  const DIAGNOSTICS: seq<string> := [
    "activating", "activation_waiting", "capacity_waiting", "rss_bytes", "in_use_bytes",
    "cgroup_working_set_bytes", "cgroup_current_bytes"]

  predicate DiagnosticsDecode(fields: map<string, Json>) {
    forall key :: key in DIAGNOSTICS ==> IsInt64(Lookup(fields, key))
  }

  function IntOf(v: Json): int { if v.JInt? then v.n else 0 }

  /** json.Unmarshal into PodState: null and absent leave the zero value, a wrong type is an error. */
  function Decode(fields: map<string, Json>): Result<PodState> {
    var shedding, deployment := Lookup(fields, "shedding"), Lookup(fields, "deployment");
    if IsInt64(Lookup(fields, "occupied")) && IsInt64(Lookup(fields, "evicting"))
       && IsInt64(Lookup(fields, "restoring")) && DiagnosticsDecode(fields)
       && (shedding.JNull? || shedding.JText?) && (deployment.JNull? || deployment.JDeployment?)
    then
      Ok(PodState(
        IntOf(Lookup(fields, "occupied")), IntOf(Lookup(fields, "evicting")), IntOf(Lookup(fields, "restoring")),
        if shedding.JText? then Some(shedding.s) else None,
        if deployment.JDeployment? then Some(deployment.d) else None))
    else Err
  }

  /** The safety counters are all really there: none missing, none silently decoded from null. */
  predicate CarriesRequired(fields: map<string, Json>) {
    forall key :: key in REQUIRED ==> key in fields && (key != "shedding" ==> fields[key] != JNull)
  }

  predicate SaneState(s: PodState) {
    && s.occupied >= 0 && s.restoring >= 0 && s.evicting >= 0
    && (s.deployment.Some? ==>
          s.deployment.value.version != "" && s.deployment.value.generation >= 1 && s.deployment.value.swapping >= 0)
  }

  /** The answers that count as an observation of the pod; everything else fails closed. */
  predicate Observes(r: Response, s: PodState) {
    && r.Response? && r.code == 200 && r.length <= MAX_STATE_BYTES && r.fields.Some?
    && "error" !in r.fields.value && CarriesRequired(r.fields.value)
    && Decode(r.fields.value) == Ok(s) && SaneState(s)
  }

  function Accept(r: Response): Result<PodState> {
    if r.Response? && r.fields.Some? && Decode(r.fields.value).Ok? && Observes(r, Decode(r.fields.value).value)
    then Decode(r.fields.value) else Err
  }

  /** An answer observes one state at most, and Fetch accepts exactly the answers that observe one. */
  lemma AcceptIff(r: Response, s: PodState)
    ensures Observes(r, s) <==> Accept(r) == Ok(s)
  {
  }

  // ----- the answers, key by key -----

  /** This key holds this number. */
  predicate Says(fields: map<string, Json>, key: string, n: int) {
    key in fields && fields[key] == JInt(n) && 0 <= n <= MAX_INT64
  }

  predicate Silent(fields: map<string, Json>, key: string) { key !in fields || fields[key] == JNull }

  predicate SaysDeployment(fields: map<string, Json>, d: Deployment) {
    && "deployment" in fields && fields["deployment"] == JDeployment(d)
    && d.version != "" && d.generation >= 1 && d.swapping >= 0
  }

  /** A diagnostic may be anything an int64 can hold, null, or missing. */
  predicate Diagnoses(fields: map<string, Json>, key: string) {
    Silent(fields, key) || (fields[key].JInt? && -MAX_INT64 - 1 <= fields[key].n <= MAX_INT64)
  }

  /** The body of an answer states this: each counter under its own key, and nothing reported as an error. */
  predicate States(fields: map<string, Json>, s: PodState) {
    && "error" !in fields
    && Says(fields, "occupied", s.occupied) && Says(fields, "restoring", s.restoring)
    && (Says(fields, "evicting", s.evicting) || (Silent(fields, "evicting") && s.evicting == 0))
    && "shedding" in fields
    && fields["shedding"] == (if s.shedding.Some? then JText(s.shedding.value) else JNull)
    && (if s.deployment.Some? then SaysDeployment(fields, s.deployment.value) else Silent(fields, "deployment"))
    && Diagnoses(fields, "activating") && Diagnoses(fields, "activation_waiting")
    && Diagnoses(fields, "capacity_waiting") && Diagnoses(fields, "rss_bytes") && Diagnoses(fields, "in_use_bytes")
    && Diagnoses(fields, "cgroup_working_set_bytes") && Diagnoses(fields, "cgroup_current_bytes")
  }

  lemma RequiredKeys(fields: map<string, Json>)
    ensures CarriesRequired(fields) <==>
            !Silent(fields, "occupied") && !Silent(fields, "restoring") && "shedding" in fields
  {
    assert REQUIRED[0] == "occupied" && REQUIRED[1] == "restoring" && REQUIRED[2] == "shedding";
    assert "occupied" in REQUIRED && "restoring" in REQUIRED && "shedding" in REQUIRED;
  }

  lemma DiagnosticKeys(fields: map<string, Json>)
    ensures DiagnosticsDecode(fields) <==>
            && Diagnoses(fields, "activating") && Diagnoses(fields, "activation_waiting")
            && Diagnoses(fields, "capacity_waiting") && Diagnoses(fields, "rss_bytes")
            && Diagnoses(fields, "in_use_bytes") && Diagnoses(fields, "cgroup_working_set_bytes")
            && Diagnoses(fields, "cgroup_current_bytes")
  {
    assert DIAGNOSTICS[0] == "activating" && DIAGNOSTICS[1] == "activation_waiting";
    assert DIAGNOSTICS[2] == "capacity_waiting" && DIAGNOSTICS[3] == "rss_bytes" && DIAGNOSTICS[4] == "in_use_bytes";
    assert DIAGNOSTICS[5] == "cgroup_working_set_bytes" && DIAGNOSTICS[6] == "cgroup_current_bytes";
    forall key ensures IsInt64(Lookup(fields, key)) <==> Diagnoses(fields, key) {
    }
  }

  /**
    An answer is accepted with a state exactly when it is a 200 of at most 4 MiB whose body states it key by key; so a
    counter is never taken from another's key, and never made up.
   */
  lemma AcceptsWhatIsStated(r: Response, s: PodState)
    ensures Accept(r) == Ok(s) <==>
            r.Response? && r.code == 200 && r.length <= 4_194_304 && r.fields.Some? && States(r.fields.value, s)
  {
    AcceptIff(r, s);
    if r.Response? && r.fields.Some? {
      RequiredKeys(r.fields.value);
      DiagnosticKeys(r.fields.value);
    }
  }

  /** StateClient.Fetch from the response on, with its loop over the required keys. */
  method Fetch(r: Response) returns (out: Result<PodState>)
    ensures out == Accept(r)
    ensures forall s :: out == Ok(s) <==>
              r.Response? && r.code == 200 && r.length <= 4_194_304 && r.fields.Some? && States(r.fields.value, s)
  {
    forall s ensures Accept(r) == Ok(s) <==>
              r.Response? && r.code == 200 && r.length <= 4_194_304 && r.fields.Some? && States(r.fields.value, s) {
      AcceptsWhatIsStated(r, s);
    }
    if r.Unreachable? || r.code != 200 || r.length > MAX_STATE_BYTES || r.fields.None? {
      return Err;
    }
    var fields := r.fields.value;
    if "error" in fields {
      return Err;
    }
    for i := 0 to |REQUIRED|
      invariant forall k :: 0 <= k < i ==>
                REQUIRED[k] in fields && (REQUIRED[k] != "shedding" ==> fields[REQUIRED[k]] != JNull)
    {
      var key := REQUIRED[i];
      if key !in fields || (key != "shedding" && fields[key] == JNull) {
        assert !CarriesRequired(fields);
        return Err;
      }
    }
    assert CarriesRequired(fields);
    var decoded := Decode(fields);
    if decoded.Err? {
      return Err;
    }
    var state := decoded.value;
    if state.occupied < 0 || state.restoring < 0 || state.evicting < 0 {
      return Err;
    }
    if state.deployment.Some? {
      var d := state.deployment.value;
      if d.version == "" || d.generation < 1 || d.swapping < 0 {
        return Err;
      }
    }
    assert Observes(r, state);
    return Ok(state);
  }

  // ----- the concurrent sweep -----

  /** A listed pod. `readyCondition` is the status of its first Ready condition, if it has one. */
  datatype PodItem = PodItem(
    name: string, owned: bool, deleting: bool, readyCondition: Option<bool>,
    ip: string, running: bool, template: Template)

  predicate PodReady(p: PodItem) { !p.deleting && p.readyCondition == Some(true) }

  /** One sweep task: the pod must be running and reachable, and its answer acceptable. */
  function Polled(pod: PodItem, r: Response): (p: Result<PodState>)
    ensures p.Ok? ==> pod.ip != "" && pod.running && !pod.deleting && Observes(r, p.value)
  {
    if pod.ip == "" || !pod.running || pod.deleting then Err else Accept(r)
  }

  /** The results of all tasks, by pod. */
  function Polls(pods: seq<PodItem>, answers: seq<Response>): (r: seq<Result<PodState>>)
    requires |pods| == |answers|
    ensures |r| == |pods|
  {
    seq(|pods|, i requires 0 <= i < |pods| => Polled(pods[i], answers[i]))
  }

  /** The counters the goroutines add; a failed one adds nothing. */
  function Counters(polls: seq<Result<PodState>>): (c: seq<int>)
    ensures |c| == |polls|
  {
    seq(|polls|, i requires 0 <= i < |polls| => if polls[i].Ok? then polls[i].value.restoring else 0)
  }

  function SumTo(c: seq<int>, n: nat): int
    requires n <= |c|
  {
    if n == 0 then 0 else SumTo(c, n - 1) + c[n - 1]
  }

  function Sum(c: seq<int>): int { SumTo(c, |c|) }

  /** The sum of the counters whose index is in `done`, among the first n. */
  ghost function MaskedTo(c: seq<int>, done: set<int>, n: nat): int
    requires n <= |c|
  {
    if n == 0 then 0 else MaskedTo(c, done, n - 1) + if n - 1 in done then c[n - 1] else 0
  }

  lemma {:induction false} MaskedAdds(c: seq<int>, done: set<int>, i: nat, n: nat)
    requires n <= |c| && i < |c| && i !in done
    ensures MaskedTo(c, done + {i}, n) == MaskedTo(c, done, n) + if i < n then c[i] else 0
  {
    if n == 0 {
    } else {
      MaskedAdds(c, done, i, n - 1);
    }
  }

  lemma {:induction false} MaskedNone(c: seq<int>, n: nat)
    requires n <= |c|
    ensures MaskedTo(c, {}, n) == 0
  {
    if n == 0 {
    } else {
      MaskedNone(c, n - 1);
    }
  }

  lemma {:induction false} MaskedAll(c: seq<int>, done: set<int>, n: nat)
    requires n <= |c| && forall i :: 0 <= i < n ==> i in done
    ensures MaskedTo(c, done, n) == SumTo(c, n)
  {
    if n == 0 {
    } else {
      MaskedAll(c, done, n - 1);
    }
  }

  /** A completion order of the sweep's tasks: each exactly once. */
  predicate CompletionOrder(order: seq<nat>, n: nat) {
    && |order| == n
    && (forall k :: 0 <= k < n ==> order[k] < n)
    && (forall j, k :: 0 <= j < k < n ==> order[j] != order[k])
    && (forall i: nat :: i < n ==> i in order)
  }

  function Names(pods: seq<PodItem>): (names: seq<string>)
    ensures |names| == |pods|
  {
    seq(|pods|, i requires 0 <= i < |pods| => pods[i].name)
  }

  /** Every sample is an accepted answer of a pod of that name, and no accepted answer is dropped. */
  predicate CoversExactly(names: seq<string>, polls: seq<Result<PodState>>, states: map<string, PodState>)
    requires |names| == |polls|
  {
    && (forall name :: name in states ==>
        exists i :: 0 <= i < |names| && names[i] == name && polls[i] == Ok(states[name]))
    && (forall i :: 0 <= i < |names| && polls[i].Ok? ==> names[i] in states)
  }

  /** The part of each goroutine before it takes the mutex, where nothing is shared. */
  method PollAll(pods: seq<PodItem>, answers: seq<Response>) returns (polls: seq<Result<PodState>>)
    requires |pods| == |answers|
    ensures polls == Polls(pods, answers)
  {
    polls := [];
    for i := 0 to |pods|
      invariant polls == Polls(pods[..i], answers[..i])
    {
      var polled: Result<PodState> := Err;
      if pods[i].ip != "" && pods[i].running && !pods[i].deleting {
        polled := Fetch(answers[i]);
      }
      polls := polls + [polled];
    }
    assert pods[..|pods|] == pods && answers[..|pods|] == answers;
  }

  /** The tasks that have finished after k completions. */
  ghost function Finished(order: seq<nat>, k: nat): set<int>
    requires k <= |order|
  {
    set j | 0 <= j < k :: order[j]
  }

  lemma FinishedGrows(order: seq<nat>, n: nat, k: nat)
    requires CompletionOrder(order, n) && k < |order|
    ensures order[k] < n && order[k] !in Finished(order, k)
    ensures Finished(order, k + 1) == Finished(order, k) + {order[k] as int}
  {
  }

  /** The shared variables of the sweep after the goroutines in `done`. */
  ghost predicate Recorded(
    names: seq<string>, polls: seq<Result<PodState>>, done: set<int>,
    states: map<string, PodState>, restoring: int, failed: bool)
    requires |names| == |polls|
  {
    && (forall i :: i in done ==> 0 <= i < |names|)
    && (forall name :: name in states ==> exists i :: i in done && names[i] == name && polls[i] == Ok(states[name]))
    && (forall i :: i in done && polls[i].Ok? ==> names[i] in states)
    && (failed <==> exists i :: i in done && polls[i].Err?)
    && restoring == Wrap64(MaskedTo(Counters(polls), done, |polls|))
  }

  lemma RecordedAdds(
    names: seq<string>, polls: seq<Result<PodState>>, done: set<int>,
    states: map<string, PodState>, restoring: int, failed: bool, i: nat)
    requires |names| == |polls| && i < |names| && i !in done && Recorded(names, polls, done, states, restoring, failed)
    ensures polls[i].Err? ==> Recorded(names, polls, done + {i}, states, restoring, true)
    ensures polls[i].Ok? ==>
              Recorded(names, polls, done + {i}, states[names[i] := polls[i].value],
                Wrap64(restoring + polls[i].value.restoring), failed)
  {
    var c := Counters(polls);
    MaskedAdds(c, done, i, |polls|);
    Wrap64Adds(MaskedTo(c, done, |polls|), c[i]);
  }

  /** When every task has finished, the shared variables are the result. */
  lemma RecordedAll(
    names: seq<string>, polls: seq<Result<PodState>>, order: seq<nat>,
    states: map<string, PodState>, restoring: int, failed: bool)
    requires |names| == |polls| && CompletionOrder(order, |polls|)
    requires Recorded(names, polls, Finished(order, |order|), states, restoring, failed)
    ensures failed <==> exists i :: 0 <= i < |polls| && polls[i].Err?
    ensures CoversExactly(names, polls, states)
    ensures restoring == Wrap64(Sum(Counters(polls)))
  {
    var done := Finished(order, |order|);
    forall i: nat | i < |polls| ensures i in done {
      assert i in order;
    }
    MaskedAll(Counters(polls), done, |polls|);
  }

  /** The part under the mutex, entered in any order: record the sample, add the counter to the 64-bit sum. */
  method Record(names: seq<string>, polls: seq<Result<PodState>>, order: seq<nat>)
    returns (states: map<string, PodState>, restoring: int, failed: bool)
    requires |names| == |polls| && CompletionOrder(order, |polls|)
    ensures failed <==> exists i :: 0 <= i < |polls| && polls[i].Err?
    ensures CoversExactly(names, polls, states)
    ensures restoring == Wrap64(Sum(Counters(polls)))
  {
    states, restoring, failed := map[], 0, false;
    MaskedNone(Counters(polls), |polls|);
    assert Finished(order, 0) == {};
    for k := 0 to |order|
      invariant Recorded(names, polls, Finished(order, k), states, restoring, failed)
    {
      var i := order[k];
      FinishedGrows(order, |polls|, k);
      RecordedAdds(names, polls, Finished(order, k), states, restoring, failed, i);
      if polls[i].Err? {
        failed := true;
      } else {
        states := states[names[i] := polls[i].value];
        restoring := Wrap64(restoring + polls[i].value.restoring);
      }
    }
    RecordedAll(names, polls, order, states, restoring, failed);
  }

  /** FleetSweep: the same samples and the same sum for every completion order of its tasks. */
  method FleetSweep(pods: seq<PodItem>, answers: seq<Response>, order: seq<nat>)
    returns (states: map<string, PodState>, restoring: int, failed: bool)
    requires |pods| == |answers| && CompletionOrder(order, |pods|)
    ensures failed <==> exists i :: 0 <= i < |pods| && Polls(pods, answers)[i].Err?
    ensures CoversExactly(Names(pods), Polls(pods, answers), states)
    ensures restoring == Wrap64(Sum(Counters(Polls(pods, answers))))
  {
    var polls := PollAll(pods, answers);
    states, restoring, failed := Record(Names(pods), polls, order);
  }

  // ----- the census -----

  /** The name the StatefulSet gives an ordinal's pod. */
  function PodName(fleet: string, ordinal: nat): string { fleet + "-" + Decimal(ordinal) }

  lemma PodNameInjective(fleet: string, m: nat, n: nat)
    requires PodName(fleet, m) == PodName(fleet, n)
    ensures m == n
  {
    var prefix := fleet + "-";
    assert PodName(fleet, m)[|prefix|..] == Decimal(m);
    assert PodName(fleet, n)[|prefix|..] == Decimal(n);
  }

  /** observeFleet's acceptance of a listing, before the sweep. */
  predicate FullFleet(pods: seq<PodItem>, fleet: string, expected: nat) {
    && expected >= 1 && |pods| == expected
    && (forall i :: 0 <= i < |pods| ==> pods[i].owned && PodReady(pods[i]))
    && (forall ord: nat :: ord < expected ==> PodName(fleet, ord) in Names(pods))
  }

  function Elements<T>(s: seq<T>): set<T> { set x | x in s }

  lemma {:induction false} AtMostOneEach<T>(s: seq<T>)
    ensures |Elements(s)| <= |s|
  {
    if s == [] {
    } else {
      var front := s[..|s| - 1];
      AtMostOneEach(front);
      assert s == front + [s[|s| - 1]];
      assert Elements(s) == Elements(front) + {s[|s| - 1]};
    }
  }

  lemma DuplicateShrinks<T>(s: seq<T>, i: int, j: int)
    requires 0 <= i < j < |s| && s[i] == s[j]
    ensures |Elements(s)| < |s|
  {
    var others := s[..j] + s[j + 1..];
    AtMostOneEach(others);
    forall x | x in s ensures x in others {
      var k :| 0 <= k < |s| && s[k] == x;
      if k < j { assert others[k] == x; }
      else if k == j { assert others[i] == x; }
      else { assert others[k - 1] == x; }
    }
    assert Elements(s) == Elements(others);
  }

  lemma SubsetOfSameSize<T>(small: set<T>, big: set<T>)
    requires small <= big && |small| >= |big|
    ensures small == big
  {
    assert big == small + (big - small);
    assert |big| == |small| + |big - small|;
    assert big - small == {};
  }

  predicate Distinct<T(==)>(s: seq<T>) { forall i, j :: 0 <= i < j < |s| ==> s[i] != s[j] }

  lemma {:induction false} DistinctCount<T>(s: seq<T>)
    requires Distinct(s)
    ensures |Elements(s)| == |s|
  {
    if s == [] {
    } else {
      var last := |s| - 1;
      DistinctCount(s[..last]);
      assert s == s[..last] + [s[last]];
      assert Elements(s) == Elements(s[..last]) + {s[last]};
    }
  }

  /** The names of the ordinals below n. */
  function OrdinalNames(fleet: string, n: nat): (names: seq<string>)
    ensures |names| == n
  {
    seq(n, ord requires 0 <= ord < n => PodName(fleet, ord))
  }

  lemma OrdinalNamesDistinct(fleet: string, n: nat)
    ensures Distinct(OrdinalNames(fleet, n))
  {
    var names := OrdinalNames(fleet, n);
    forall i, j | 0 <= i < j < n ensures names[i] != names[j] {
      if PodName(fleet, i) == PodName(fleet, j) { PodNameInjective(fleet, i, j); }
    }
  }

  /**
    Pigeonhole: the count and the names together make the listing a bijection with the ordinals.
    Every listed pod is one expected ordinal's, every ordinal's pod is listed, and no name twice.
   */
  lemma FullFleetIsBijection(pods: seq<PodItem>, fleet: string, n: nat)
    requires FullFleet(pods, fleet, n)
    ensures Elements(Names(pods)) == Elements(OrdinalNames(fleet, n))
    ensures Distinct(Names(pods))
  {
    var names, ordinals := Names(pods), OrdinalNames(fleet, n);
    AtMostOneEach(names);
    OrdinalNamesDistinct(fleet, n);
    DistinctCount(ordinals);
    forall x | x in ordinals ensures x in names {
      var ord :| 0 <= ord < n && ordinals[ord] == x;
      assert PodName(fleet, ord) in names;
    }
    assert Elements(ordinals) <= Elements(names);
    SubsetOfSameSize(Elements(ordinals), Elements(names));
    forall i, j | 0 <= i < j < |names| ensures names[i] != names[j] {
      if names[i] == names[j] { DuplicateShrinks(names, i, j); }
    }
  }

  datatype Sample = Sample(states: map<string, PodState>, restoring: int)

  predicate AllAnswered(polls: seq<Result<PodState>>) { forall i :: 0 <= i < |polls| ==> polls[i].Ok? }

  /** With distinct names a complete set of samples is determined: one for each name, that pod's own answer. */
  lemma CoverOfDistinctNames(names: seq<string>, polls: seq<Result<PodState>>, states: map<string, PodState>)
    requires |names| == |polls| && Distinct(names) && AllAnswered(polls) && CoversExactly(names, polls, states)
    ensures states.Keys == Elements(names)
    ensures forall i :: 0 <= i < |names| ==> polls[i] == Ok(states[names[i]])
  {
  }

  lemma CoverIsUnique(
    names: seq<string>, polls: seq<Result<PodState>>, s: map<string, PodState>, t: map<string, PodState>)
    requires |names| == |polls| && Distinct(names) && AllAnswered(polls)
    requires CoversExactly(names, polls, s) && CoversExactly(names, polls, t)
    ensures s == t
  {
  }

  /**
    What observeFleet concludes: every ordinal's pod answered acceptably, nothing else did, and the 64-bit sum
    is this.
   */
  predicate Observed(pods: seq<PodItem>, answers: seq<Response>, fleet: string, n: nat, s: Sample) {
    && FullFleet(pods, fleet, n) && |answers| == |pods|
    && AllAnswered(Polls(pods, answers))
    && CoversExactly(Names(pods), Polls(pods, answers), s.states)
    && s.restoring == Wrap64(Sum(Counters(Polls(pods, answers))))
  }

  /** An observation has one sample for each ordinal, and it is that pod's own accepted answer. */
  lemma ObservedByOrdinal(pods: seq<PodItem>, answers: seq<Response>, fleet: string, n: nat, s: Sample)
    requires Observed(pods, answers, fleet, n, s)
    ensures s.states.Keys == Elements(OrdinalNames(fleet, n))
    ensures forall i :: 0 <= i < |pods| ==>
              pods[i].name in s.states && Polls(pods, answers)[i] == Ok(s.states[pods[i].name])
  {
    var names, polls := Names(pods), Polls(pods, answers);
    assert Distinct(names) && Elements(names) == Elements(OrdinalNames(fleet, n)) by {
      FullFleetIsBijection(pods, fleet, n);
    }
    CoverOfDistinctNames(names, polls, s.states);
    forall i | 0 <= i < |pods| ensures pods[i].name in s.states && polls[i] == Ok(s.states[pods[i].name]) {
      assert names[i] == pods[i].name;
    }
  }

  function SampleOf(names: seq<string>, polls: seq<Result<PodState>>): (states: map<string, PodState>)
    requires |names| == |polls| && AllAnswered(polls)
    ensures CoversExactly(names, polls, states)
  {
    if names == [] then map[]
    else
      var last := |names| - 1;
      var front := SampleOf(names[..last], polls[..last]);
      assert forall i :: 0 <= i < last ==> names[..last][i] == names[i] && polls[..last][i] == polls[i];
      front[names[last] := polls[last].value]
  }

  /** observeFleet as a function of what it reads; None is its error. */
  function ObserveFleet(pods: seq<PodItem>, answers: seq<Response>, fleet: string, n: nat): (s: Option<Sample>)
    ensures s.Some? ==> Observed(pods, answers, fleet, n, s.value)
  {
    if FullFleet(pods, fleet, n) && |answers| == |pods| && AllAnswered(Polls(pods, answers)) then
      var polls := Polls(pods, answers);
      Some(Sample(SampleOf(Names(pods), polls), Wrap64(Sum(Counters(polls)))))
    else None
  }

  /** A listing and its answers are observed in one way only. */
  lemma ObservedIsTheResult(pods: seq<PodItem>, answers: seq<Response>, fleet: string, n: nat, s: Sample)
    requires Observed(pods, answers, fleet, n, s)
    ensures ObserveFleet(pods, answers, fleet, n) == Some(s)
  {
    var names, polls := Names(pods), Polls(pods, answers);
    assert Distinct(names) by {
      FullFleetIsBijection(pods, fleet, n);
    }
    CoverIsUnique(names, polls, s.states, SampleOf(names, polls));
  }

  /** observeFleet's checks of the listing: count, ownership and readiness, names seen, ordinals looked up. */
  method CheckListing(pods: seq<PodItem>, fleet: string, expected: nat) returns (full: bool)
    ensures full == FullFleet(pods, fleet, expected)
    ensures full <==>
            && 1 <= expected == |pods|
            && (forall i :: 0 <= i < |pods| ==>
                  pods[i].owned && pods[i].readyCondition == Some(true) && !pods[i].deleting)
            && forall ord: nat :: ord < expected ==> PodName(fleet, ord) in Names(pods)
  {
    if expected < 1 || |pods| != expected {
      return false;
    }
    var names: set<string> := {};
    ghost var all := Names(pods);
    for i := 0 to |pods|
      invariant names == Elements(all[..i])
      invariant forall k :: 0 <= k < i ==> pods[k].owned && PodReady(pods[k])
    {
      if !pods[i].owned || !PodReady(pods[i]) {
        return false;
      }
      assert all[..i + 1] == all[..i] + [pods[i].name];
      names := names + {pods[i].name};
    }
    assert all[..|pods|] == all;
    for ord := 0 to expected
      invariant forall k: nat :: k < ord ==> PodName(fleet, k) in all
    {
      if PodName(fleet, ord) !in names {
        return false;
      }
    }
    return true;
  }

  /** observeFleet as it runs. */
  method CountFleet(pods: seq<PodItem>, answers: seq<Response>, order: seq<nat>, fleet: string, expected: nat)
    returns (sample: Option<Sample>)
    requires |answers| == |pods| && CompletionOrder(order, |pods|)
    ensures sample == ObserveFleet(pods, answers, fleet, expected)
  {
    var full := CheckListing(pods, fleet, expected);
    if !full {
      return None;
    }
    var states, restoring, failed := FleetSweep(pods, answers, order);
    if failed {
      return None;
    }
    var s := Sample(states, restoring);
    ObservedIsTheResult(pods, answers, fleet, expected, s);
    return Some(s);
  }

  // ----- what the sum can tell -----

  /** Counters a pod can report: Fetch refuses negative ones and JSON decoding larger ones. */
  predicate Reportable(counters: seq<int>) { forall i :: 0 <= i < |counters| ==> 0 <= counters[i] <= MAX_INT64 }

  predicate AllZero(counters: seq<int>) { forall i :: 0 <= i < |counters| ==> counters[i] == 0 }

  lemma {:induction false} SumBounds(c: seq<int>, n: nat)
    requires n <= |c| && Reportable(c)
    ensures 0 <= SumTo(c, n) <= n * MAX_INT64
    ensures SumTo(c, n) == 0 <==> forall i :: 0 <= i < n ==> c[i] == 0
  {
    if n == 0 {
    } else {
      SumBounds(c, n - 1);
    }
  }

  /** As long as the true sum is below 2^64, the wrapped sum is zero exactly when every pod is done restoring. */
  lemma ZeroSumMeansAllZero(c: seq<int>)
    requires Reportable(c) && Sum(c) < TWO_64
    ensures Wrap64(Sum(c)) == 0 <==> AllZero(c)
  {
    SumBounds(c, |c|);
  }

  /** What accepted answers report is always reportable. */
  lemma SweptCountersReportable(pods: seq<PodItem>, answers: seq<Response>)
    requires |pods| == |answers|
    ensures Reportable(Counters(Polls(pods, answers)))
  {
  }

  /** A listed pod of this name is owned and ready, and itself answered with this state. */
  predicate Answers(pod: PodItem, answer: Response, name: string, s: PodState) {
    && pod.name == name && pod.owned && pod.readyCondition == Some(true) && !pod.deleting
    && pod.ip != "" && pod.running && Observes(answer, s)
  }

  /**
    What a zero sum says of each ordinal: its own listed pod answered with the sampled state, and unless the
    true sum reaches 2^64 that pod itself has nothing left to restore.
   */
  lemma SettledOrdinal(pods: seq<PodItem>, answers: seq<Response>, fleet: string, n: nat, sample: Sample, ord: nat)
    returns (i: nat, s: PodState)
    requires Observed(pods, answers, fleet, n, sample) && sample.restoring == 0 && ord < n
    ensures i < |pods| == |answers| && Answers(pods[i], answers[i], PodName(fleet, ord), s)
    ensures PodName(fleet, ord) in sample.states && s == sample.states[PodName(fleet, ord)]
    ensures Sum(Counters(Polls(pods, answers))) < TWO_64 ==> s.restoring == 0
  {
    ObservedByOrdinal(pods, answers, fleet, n, sample);
    var polls := Polls(pods, answers);
    assert PodName(fleet, ord) in Names(pods);
    i :| 0 <= i < |pods| && Names(pods)[i] == PodName(fleet, ord);
    s := sample.states[pods[i].name];
    assert polls[i] == Polled(pods[i], answers[i]);
    if Sum(Counters(polls)) < TWO_64 {
      SweptCountersReportable(pods, answers);
      ZeroSumMeansAllZero(Counters(polls));
      assert Counters(polls)[i] == s.restoring;
    }
  }

  /** Three reports that add up to 2^64, and any number of idle pods beside them. */
  function Wrapping(n: nat): seq<int>
    requires n >= 3
  {
    seq(n, i => if i == 0 || i == 1 then MAX_INT64 else if i == 2 then 2 else 0)
  }

  lemma {:induction false} WrappingSum(n: nat, k: nat)
    requires 3 <= k <= n
    ensures SumTo(Wrapping(n), k) == TWO_64
  {
    var c := Wrapping(n);
    if k == 3 {
      assert SumTo(c, 1) == SumTo(c, 0) + c[0];
      assert SumTo(c, 2) == SumTo(c, 1) + c[1];
    } else {
      WrappingSum(n, k - 1);
    }
  }

  /**
    Exactly which fleets the restoring gate is exact for: with at most two pods the wrapped sum is
    zero only if every counter is; from three pods on there are reports that wrap to zero.
   */
  lemma GateExactIff(n: nat)
    ensures (forall c: seq<int> :: |c| == n && Reportable(c) && Wrap64(Sum(c)) == 0 ==> AllZero(c)) <==> n <= 2
  {
    if n <= 2 {
      forall c: seq<int> | |c| == n && Reportable(c) && Wrap64(Sum(c)) == 0 ensures AllZero(c) {
        SumBounds(c, n);
        assert n * MAX_INT64 <= 2 * MAX_INT64;
        ZeroSumMeansAllZero(c);
      }
    } else {
      WrappingSum(n, n);
      var c := Wrapping(n);
      assert c[0] != 0;
      assert |c| == n && Reportable(c) && Wrap64(Sum(c)) == 0 && !AllZero(c);
    }
  }
}

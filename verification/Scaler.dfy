/** Keeping KEDA and the horizontal autoscaler off the fleet while the operator writes it. */
module Scaler {
  import opened Prelude

  /** The fleet's KEDA object: our pause annotation, whether we control it, and its Paused=True condition. */
  datatype ScaledObject = ScaledObject(pauseRequested: bool, controlled: bool, acknowledged: bool)

  /** What one horizontal autoscaler points at. */
  datatype Target = Target(kind: string, name: string)

  predicate Targets(hpa: Target, fleet: string) { hpa.kind == "StatefulSet" && hpa.name == fleet }

  /**
    Nothing else is scaling the fleet: KEDA has acknowledged our pause, or there is no KEDA object
    at all, and no horizontal autoscaler names the StatefulSet.
   */
  predicate Quiet(
    kedaInstalled: bool, scaled: Option<ScaledObject>, hpas: seq<Target>, fleet: string, autoscaling: bool)
  {
    && (|| !kedaInstalled
        || (!autoscaling && scaled.None?)
        || (autoscaling && scaled.Some? && scaled.value == ScaledObject(true, true, true)))
    && forall i :: 0 <= i < |hpas| ==> !Targets(hpas[i], fleet)
  }

  /** Something may change the fleet's scale: a KEDA object not known to be paused, or an autoscaler that names it. */
  predicate MayScale(kedaInstalled: bool, scaled: Option<ScaledObject>, hpas: seq<Target>, fleet: string) {
    || (kedaInstalled && scaled.Some? && !(scaled.value.pauseRequested && scaled.value.acknowledged))
    || Target("StatefulSet", fleet) in hpas
  }

  /** The KEDA object is as the spec wants it: our own with autoscaling, none without. */
  predicate AsWanted(kedaInstalled: bool, scaled: Option<ScaledObject>, autoscaling: bool) {
    kedaInstalled ==> if autoscaling then scaled.Some? && scaled.value.controlled else scaled.None?
  }

  /** Quiet means that nothing may scale the fleet; and nothing else is asked but that the KEDA object is as wanted. */
  lemma QuietIff(
    kedaInstalled: bool, scaled: Option<ScaledObject>, hpas: seq<Target>, fleet: string, autoscaling: bool)
    ensures Quiet(kedaInstalled, scaled, hpas, fleet, autoscaling) <==>
            !MayScale(kedaInstalled, scaled, hpas, fleet) && AsWanted(kedaInstalled, scaled, autoscaling)
  {
    forall i | 0 <= i < |hpas| ensures Targets(hpas[i], fleet) <==> hpas[i] == Target("StatefulSet", fleet) {
    }
  }

  /** Which of its requests fail: reading the KEDA object, writing or deleting it, listing the autoscalers. */
  datatype ScalerFaults = ScalerFaults(get: bool, write: bool, list: bool)

  /**
    The one change a pass makes on the way to quiet: none to another's object, or to ours once it asks for the
    pause.
   */
  function Towards(kedaInstalled: bool, scaled: Option<ScaledObject>, autoscaling: bool): Option<ScaledObject> {
    if !kedaInstalled || (scaled.Some? && !scaled.value.controlled) then scaled
    else if !autoscaling then None
    else if scaled.None? then Some(ScaledObject(true, true, false))
    else Some(scaled.value.(pauseRequested := true))
  }

  /** The KEDA object is someone else's. */
  predicate Foreign(kedaInstalled: bool, scaled: Option<ScaledObject>) {
    kedaInstalled && scaled.Some? && !scaled.value.controlled
  }

  /** KEDA's part: it acknowledges a pause that is asked for. */
  function Acknowledged(scaled: Option<ScaledObject>): Option<ScaledObject> {
    if scaled.Some? then Some(scaled.value.(acknowledged := scaled.value.pauseRequested)) else None
  }

  /** One step and KEDA's acknowledgement quiet it, unless the object is someone else's or an autoscaler names it. */
  lemma OneStepQuiets(
    kedaInstalled: bool, scaled: Option<ScaledObject>, hpas: seq<Target>, fleet: string, autoscaling: bool)
    ensures var after := Acknowledged(Towards(kedaInstalled, scaled, autoscaling));
            Quiet(kedaInstalled, after, hpas, fleet, autoscaling) <==>
            !Foreign(kedaInstalled, scaled) && Target("StatefulSet", fleet) !in hpas
  {
    QuietIff(kedaInstalled, Acknowledged(Towards(kedaInstalled, scaled, autoscaling)), hpas, fleet, autoscaling);
  }

  /** Someone else's object is left alone, and what is already as wanted and paused is not touched again. */
  lemma TowardsKeeps(kedaInstalled: bool, scaled: Option<ScaledObject>, autoscaling: bool)
    ensures scaled.Some? && !scaled.value.controlled ==> Towards(kedaInstalled, scaled, autoscaling) == scaled
    ensures Towards(kedaInstalled, Towards(kedaInstalled, scaled, autoscaling), autoscaling)
         == Towards(kedaInstalled, scaled, autoscaling)
  {
  }

  class ScalerApi {
    const kedaInstalled: bool
    var scaled: Option<ScaledObject>
    var hpas: seq<Target>

    constructor (kedaInstalled: bool, scaled: Option<ScaledObject>, hpas: seq<Target>)
      ensures this.kedaInstalled == kedaInstalled && this.scaled == scaled && this.hpas == hpas
    {
      this.kedaInstalled, this.scaled, this.hpas := kedaInstalled, scaled, hpas;
    }

    /**
      pauseScaling. It answers yes exactly when it observed a quiet scaler, and then it changed nothing. Otherwise
      the only change is a step towards quiet, made only when no request fails: our object paused, created
      paused, or, with autoscaling off, removed. Someone else's object is never touched.
     */
    method PauseScaling(fleet: string, autoscaling: bool, faults: ScalerFaults) returns (paused: Result<bool>)
      modifies this`scaled
      ensures paused == Ok(true) <==>
              !faults.get && !faults.list && Quiet(kedaInstalled, old(scaled), hpas, fleet, autoscaling)
      ensures paused == Ok(true) || faults.get || faults.write ==> scaled == old(scaled)
      ensures !faults.get && !faults.write ==>
                scaled == Towards(kedaInstalled, old(scaled), autoscaling)
      ensures paused == Err <==>
              || faults.get || Foreign(kedaInstalled, old(scaled))
              || (faults.write && Towards(kedaInstalled, old(scaled), autoscaling) != old(scaled))
              || (faults.list && Quiet(kedaInstalled, old(scaled), [], fleet, autoscaling))
    {
      if faults.get {
        return Err;
      }
      if !autoscaling {
        if kedaInstalled && scaled.Some? {
          if !scaled.value.controlled || faults.write {
            return Err;
          }
          scaled := None;
          return Ok(false);
        }
      } else if kedaInstalled {
        if scaled.None? || !scaled.value.pauseRequested {
          if faults.write || (scaled.Some? && !scaled.value.controlled) {
            return Err;
          }
          scaled := Some(ScaledObject(true, true, scaled.Some? && scaled.value.acknowledged));
          return Ok(false);
        }
        if !scaled.value.controlled {
          return Err;
        }
        if !scaled.value.acknowledged {
          return Ok(false);
        }
      }
      if faults.list {
        return Err;
      }
      for i := 0 to |hpas|
        invariant forall k :: 0 <= k < i ==> !Targets(hpas[k], fleet)
      {
        if Targets(hpas[i], fleet) {
          return Ok(false);
        }
      }
      return Ok(true);
    }
  }
}

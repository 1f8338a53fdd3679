/** Annotation ownership: what reconcileAnnotations leaves after any history of its own and others' writes. */
module Annotations {
  import opened Prelude

  type Entries = map<string, string>

  const MANAGED: string := "celld-operator.io/managed-annotations"

  /** Keys an Ingress may carry from before there was an inventory. */
  const LEGACY: set<string> := {
    "nginx.ingress.kubernetes.io/proxy-read-timeout", "nginx.ingress.kubernetes.io/proxy-send-timeout",
    "cert-manager.io/cluster-issuer"}

  /**
    The inventory as JSON: the keys are sorted before they are marshalled, so the text is a function of
    the set; what does not parse reads as some set too.
   */
  datatype Codec = Codec(encode: set<string> -> string, decode: string -> set<string>)

  ghost predicate Inverse(codec: Codec) { forall keys :: codec.decode(codec.encode(keys)) == keys }

  function Inventory(codec: Codec, live: Entries): set<string> {
    codec.decode(if MANAGED in live then live[MANAGED] else "")
  }

  /** The keys the operator takes to be its own on this object. */
  function Owned(codec: Codec, ingress: bool, live: Entries): set<string> {
    Inventory(codec, live) + if ingress then LEGACY else {}
  }

  function Wanted(desired: Entries): Entries { desired - {MANAGED} }

  /** What the object is left with. */
  function Reconciled(codec: Codec, ingress: bool, live: Entries, desired: Entries): Entries {
    var stale := Owned(codec, ingress, live) - desired.Keys;
    (live - stale + Wanted(desired))[MANAGED := codec.encode(Wanted(desired).Keys)]
  }

  /** The keys an object's inventory names, and on an Ingress the three from before there was one. */
  predicate Claims(codec: Codec, ingress: bool, live: Entries, key: string) {
    || key in codec.decode(if MANAGED in live then live[MANAGED] else "")
    || (ingress && (key == "nginx.ingress.kubernetes.io/proxy-read-timeout"
                    || key == "nginx.ingress.kubernetes.io/proxy-send-timeout"
                    || key == "cert-manager.io/cluster-issuer"))
  }

  /** Key by key: the desired value, or what was there unclaimed; and an inventory that does not list itself. */
  ghost predicate LeavesOf(codec: Codec, ingress: bool, live: Entries, desired: Entries, left: Entries) {
    && MANAGED in left && left[MANAGED] == codec.encode(desired.Keys - {MANAGED})
    && (forall key :: key in desired && key != MANAGED ==> key in left && left[key] == desired[key])
    && (forall key :: key !in desired && key != MANAGED ==>
          (key in left <==> key in live && !Claims(codec, ingress, live, key)))
    && forall key :: key in left && key !in desired && key != MANAGED ==> left[key] == live[key]
  }

  lemma ReconciledLeaves(codec: Codec, ingress: bool, live: Entries, desired: Entries)
    ensures LeavesOf(codec, ingress, live, desired, Reconciled(codec, ingress, live, desired))
  {
    assert Wanted(desired).Keys == desired.Keys - {MANAGED};
    forall key ensures key in Owned(codec, ingress, live) <==> Claims(codec, ingress, live, key) {
    }
  }

  lemma SetsOne(live: Entries, desired: Entries, left: set<string>, key: string, skipped: string)
    requires key in left && key in desired
    ensures live + (desired - (left - {key}) - {skipped})
         == if key == skipped then live + (desired - left - {skipped})
            else (live + (desired - left - {skipped}))[key := desired[key]]
    ensures desired.Keys - (left - {key}) - {skipped}
         == if key == skipped then desired.Keys - left - {skipped} else desired.Keys - left - {skipped} + {key}
  {
  }

  lemma SetsNone(live: Entries, desired: Entries, skipped: string)
    ensures live + (desired - desired.Keys - {skipped}) == live && desired.Keys - desired.Keys - {skipped} == {}
  {
  }

  lemma SetsAll(live: Entries, desired: Entries, skipped: string)
    ensures live + (desired - {} - {skipped}) == live + (desired - {skipped})
    ensures desired.Keys - {} - {skipped} == desired.Keys - {skipped}
  {
  }

  class Annotated {
    const ingress: bool
    var annotations: Entries

    constructor (ingress: bool, annotations: Entries)
      ensures this.ingress == ingress && this.annotations == annotations
    {
      this.ingress, this.annotations := ingress, annotations;
    }

    /** The first loop: drop what was owned and is no longer wanted. */
    method DropUnwanted(keys: set<string>, desired: Entries)
      modifies this`annotations
      ensures annotations == old(annotations) - (keys - desired.Keys)
    {
      var left := keys;
      while left != {}
        invariant left <= keys && annotations == old(annotations) - (keys - left - desired.Keys)
        decreases |left|
      {
        var key :| key in left;
        left := left - {key};
        if key !in desired {
          annotations := annotations - {key};
        }
      }
    }

    /** The second loop: set what is wanted, all but the inventory, and take note of its keys. */
    method SetWanted(desired: Entries, skipped: string) returns (keys: set<string>)
      modifies this`annotations
      ensures annotations == old(annotations) + (desired - {skipped}) && keys == desired.Keys - {skipped}
    {
      keys := {};
      var left := desired.Keys;
      ghost var live := annotations;
      SetsNone(live, desired, skipped);
      while left != {}
        invariant left <= desired.Keys && keys == desired.Keys - left - {skipped}
        invariant annotations == live + (desired - left - {skipped})
        decreases |left|
      {
        var key :| key in left;
        SetsOne(live, desired, left, key, skipped);
        left := left - {key};
        if key != skipped {
          annotations := annotations[key := desired[key]];
          keys := keys + {key};
        }
      }
      SetsAll(live, desired, skipped);
    }

    method ReconcileAnnotations(codec: Codec, desired: Entries)
      modifies this`annotations
      ensures annotations == Reconciled(codec, ingress, old(annotations), desired)
    {
      var keys := codec.decode(if MANAGED in annotations then annotations[MANAGED] else "");
      if ingress {
        keys := keys + LEGACY;
      }
      DropUnwanted(keys, desired);
      keys := SetWanted(desired, MANAGED);
      annotations := annotations[MANAGED := codec.encode(keys)];
    }
  }

  // ----- histories -----

  /** The operator applies a desired map, or anyone else sets or removes a key other than the inventory. */
  datatype Event = Apply(desired: Entries) | Edit(key: string, value: Option<string>)

  function Edited(live: Entries, key: string, value: Option<string>): Entries {
    if value.Some? then live[key := value.value] else live - {key}
  }

  function Step(codec: Codec, ingress: bool, live: Entries, e: Event): Entries {
    match e
    case Apply(desired) => Reconciled(codec, ingress, live, desired)
    case Edit(key, value) => Edited(live, key, value)
  }

  /** The object after the first n events. */
  function After(codec: Codec, ingress: bool, live: Entries, events: seq<Event>, n: nat): Entries
    requires n <= |events|
  {
    if n == 0 then live else Step(codec, ingress, After(codec, ingress, live, events, n - 1), events[n - 1])
  }

  /** What others have on the object: all but the owned keys and the inventory. */
  function ForeignOf(codec: Codec, ingress: bool, live: Entries): Entries {
    live - Owned(codec, ingress, live) - {MANAGED}
  }

  /** The keys the operator owns after the first n events, from the events alone. */
  function OwnedAfter(ingress: bool, first: set<string>, events: seq<Event>, n: nat): set<string>
    requires n <= |events|
  {
    if n == 0 then first
    else
      match events[n - 1]
      case Apply(desired) => Wanted(desired).Keys + if ingress then LEGACY else {}
      case Edit(_, _) => OwnedAfter(ingress, first, events, n - 1)
  }

  /**
    Others' entries after the first n events, from the events alone: their edits of keys not owned at the
    time, less every key the operator has claimed since.
   */
  function ForeignAfter(ingress: bool, first: set<string>, foreign: Entries, events: seq<Event>, n: nat): Entries
    requires n <= |events|
  {
    if n == 0 then foreign
    else
      var before := ForeignAfter(ingress, first, foreign, events, n - 1);
      match events[n - 1]
      case Apply(desired) => before - desired.Keys
      case Edit(key, value) => if key in OwnedAfter(ingress, first, events, n - 1) then before
          else Edited(before, key, value)
  }

  predicate LeavesInventory(e: Event) { e.Edit? ==> e.key != MANAGED }

  /** One application: the keys owned after it, and what it does to others' entries. */
  lemma ApplySplits(codec: Codec, ingress: bool, live: Entries, desired: Entries)
    requires Inverse(codec)
    ensures var t := Reconciled(codec, ingress, live, desired);
            && Owned(codec, ingress, t) == Wanted(desired).Keys + (if ingress then LEGACY else {})
            && ForeignOf(codec, ingress, t) == ForeignOf(codec, ingress, live) - desired.Keys
            && t == (ForeignOf(codec, ingress, t) + Wanted(desired))[MANAGED := codec.encode(Wanted(desired).Keys)]
  {
  }

  lemma EditSplits(codec: Codec, ingress: bool, live: Entries, key: string, value: Option<string>)
    requires key != MANAGED
    ensures var t := Edited(live, key, value);
            && Owned(codec, ingress, t) == Owned(codec, ingress, live)
            && ForeignOf(codec, ingress, t)
               == if key in Owned(codec, ingress, live) then ForeignOf(codec, ingress, live)
                  else Edited(ForeignOf(codec, ingress, live), key, value)
  {
  }

  /** At every moment the object is split exactly as the events alone say. */
  lemma {:induction false} HistorySplits(codec: Codec, ingress: bool, live: Entries, events: seq<Event>, n: nat)
    requires Inverse(codec) && n <= |events| && forall i :: 0 <= i < |events| ==> LeavesInventory(events[i])
    ensures var first := Owned(codec, ingress, live);
            && Owned(codec, ingress, After(codec, ingress, live, events, n)) == OwnedAfter(ingress, first, events, n)
            && ForeignOf(codec, ingress, After(codec, ingress, live, events, n))
               == ForeignAfter(ingress, first, ForeignOf(codec, ingress, live), events, n)
  {
    if n == 0 {
    } else {
      HistorySplits(codec, ingress, live, events, n - 1);
      var before := After(codec, ingress, live, events, n - 1);
      match events[n - 1]
      case Apply(desired) => ApplySplits(codec, ingress, before, desired);
      case Edit(key, value) => EditSplits(codec, ingress, before, key, value);
    }
  }

  /**
    Ownership does not depend on history: after any history that ends with an application, the object holds
    exactly others' entries, the last desired map, and its inventory.
   */
  lemma EndsWithLastDesired(codec: Codec, ingress: bool, live: Entries, events: seq<Event>, desired: Entries)
    requires Inverse(codec) && events != [] && events[|events| - 1] == Apply(desired)
    requires forall i :: 0 <= i < |events| ==> LeavesInventory(events[i])
    ensures var foreign := ForeignAfter(ingress, Owned(codec, ingress, live), ForeignOf(codec, ingress, live), events,
              |events|);
            After(codec, ingress, live, events, |events|)
            == (foreign + Wanted(desired))[MANAGED := codec.encode(Wanted(desired).Keys)]
  {
    HistorySplits(codec, ingress, live, events, |events|);
    ApplySplits(codec, ingress, After(codec, ingress, live, events, |events| - 1), desired);
  }

  /** With only applications, others keep exactly the entries that were neither owned at first nor ever desired. */
  lemma {:induction false} ForeignSurvivesUnclaimed(
    ingress: bool, first: set<string>, foreign: Entries, events: seq<Event>, n: nat)
    requires n <= |events| && forall i :: 0 <= i < |events| ==> events[i].Apply?
    ensures ForeignAfter(ingress, first, foreign, events, n)
         == map k | k in foreign && (forall i :: 0 <= i < n ==> k !in events[i].desired) :: foreign[k]
  {
    if n == 0 {
    } else {
      ForeignSurvivesUnclaimed(ingress, first, foreign, events, n - 1);
    }
  }

  /** Each application is idempotent. */
  lemma Idempotent(codec: Codec, ingress: bool, live: Entries, desired: Entries)
    requires Inverse(codec)
    ensures var once := Reconciled(codec, ingress, live, desired); Reconciled(codec, ingress, once, desired) == once
  {
  }
}

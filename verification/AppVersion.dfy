/** From the deploy pointer to the pod template: what an unreachable bucket does to a running fleet. */
module AppVersion {
  import opened Prelude
  import opened Compatibility
  import opened Rollout
  import opened DeployTracker

  const AUTO: string := "auto"

  /** The parts of a WorkerApp that resolving its version and building its template read. */
  datatype Spec = Spec(
    appVersion: string, s3: bool, trackingSecret: bool, inPlace: bool,
    image: string, durability: string, rest: string)

  /** The live StatefulSet as liveTemplateVersion reads it. */
  datatype LiveRead = Unreadable | Readable(template: Template)

  datatype Report = Tracking | BucketUnreachable | VersionMismatch | UnsupportedStore

  function LiveTemplateVersion(live: LiveRead): string {
    if live.Readable? && live.template.appVersion.Some? then live.template.appVersion.value else ""
  }

  /** No pointer read that could name a version: none is possible, or it failed with nothing cached. */
  predicate NoVersionKnown(app: Spec, pointer: Answer) { !app.s3 || (pointer.failed && !pointer.stale) }

  /** The version the fleet should serve. */
  function Resolved(app: Spec, pointer: Answer, live: LiveRead): string {
    if app.appVersion != AUTO then app.appVersion
    else if NoVersionKnown(app, pointer) then LiveTemplateVersion(live)
    else pointer.version
  }

  function Reports(app: Spec, pointer: Answer): seq<Report> {
    if !app.s3 then (if app.appVersion == AUTO then [UnsupportedStore] else [])
    else if app.appVersion == AUTO then [if pointer.failed then BucketUnreachable else Tracking]
    else if app.trackingSecret && !pointer.failed && pointer.version != app.appVersion then [VersionMismatch]
    else []
  }

  /** resolveAppVersion, appending to the pass's conditions. */
  method ResolveAppVersion(app: Spec, pointer: Answer, live: LiveRead, conditions: seq<Report>)
    returns (version: string, tracking: bool, appended: seq<Report>)
    ensures version == Resolved(app, pointer, live)
    ensures tracking <==> app.s3 && app.appVersion == AUTO
    ensures appended == conditions + Reports(app, pointer)
    ensures app.appVersion != "auto" ==> version == app.appVersion
    ensures app.appVersion == "auto" && app.s3 && (!pointer.failed || pointer.stale) ==> version == pointer.version
    ensures app.appVersion == "auto" && (!app.s3 || (pointer.failed && !pointer.stale)) ==>
              version == if live.Readable? && live.template.appVersion.Some? then live.template.appVersion.value else ""
    ensures Tracking in Reports(app, pointer) <==> app.s3 && app.appVersion == "auto" && !pointer.failed
    ensures BucketUnreachable in Reports(app, pointer) <==> app.s3 && app.appVersion == "auto" && pointer.failed
    ensures UnsupportedStore in Reports(app, pointer) <==> !app.s3 && app.appVersion == "auto"
    ensures VersionMismatch in Reports(app, pointer) <==>
            && app.s3 && app.appVersion != "auto" && app.trackingSecret && !pointer.failed
            && pointer.version != app.appVersion
    ensures |Reports(app, pointer)| <= 1
  {
    appended := conditions;
    if !app.s3 {
      if app.appVersion != AUTO {
        return app.appVersion, false, appended;
      }
      return LiveTemplateVersion(live), false, appended + [UnsupportedStore];
    }
    if app.appVersion != AUTO {
      if app.trackingSecret && !pointer.failed && pointer.version != app.appVersion {
        appended := appended + [VersionMismatch];
      }
      return app.appVersion, false, appended;
    }
    if !pointer.failed {
      return pointer.version, true, appended + [Tracking];
    } else if pointer.stale {
      return pointer.version, true, appended + [BucketUnreachable];
    }
    return LiveTemplateVersion(live), true, appended + [BucketUnreachable];
  }

  /** buildPodTemplate, as far as the rollout reads it. */
  function BuildTemplate(app: Spec, configHash: string, appVersion: string): Template {
    Template(
      app.image,
      Some(if app.durability == "" then BUCKET_DURABILITY else app.durability),
      if appVersion != "" && !app.inPlace then Some(appVersion) else None,
      if configHash != "" then Some(configHash) else None,
      app.rest)
  }

  /** What of spec, Secrets and version a template shows, and under which durability proof its pods run. */
  lemma SameTemplateIff(app: Spec, configHash: string, v: string, other: Spec, otherHash: string, w: string)
    ensures BuildTemplate(app, configHash, v) == BuildTemplate(other, otherHash, w) <==>
            && app.image == other.image && app.rest == other.rest && configHash == otherHash
            && (app.durability == other.durability || {app.durability, other.durability} == {"", "bucket"})
            && (if app.inPlace then "" else v) == (if other.inPlace then "" else w)
    ensures UsesFleetDurability(BuildTemplate(app, configHash, v)) <==> app.durability !in {"", "bucket"}
    ensures BuildTemplate(app, configHash, v).image == app.image
    ensures !app.inPlace && v != "" ==> LiveTemplateVersion(Readable(BuildTemplate(app, configHash, v))) == v
  {
    assert BUCKET_DURABILITY == "bucket";
  }

  /** The fleet runs what this spec and these Secrets gave for some earlier version. */
  ghost predicate BuiltBefore(app: Spec, configHash: string, live: Template) {
    exists version :: live == BuildTemplate(app, configHash, version)
  }

  /**
    Outage does not roll, and exactly when: with spec and Secrets unchanged and no version known from the
    pointer, a pass builds the template the fleet already has if and only if it could read the
    StatefulSet, or the template carries no version (as under InPlace).
   */
  lemma OutageBuildsSameTemplateIff(app: Spec, configHash: string, pointer: Answer, read: LiveRead, live: Template)
    requires app.appVersion == AUTO && NoVersionKnown(app, pointer) && BuiltBefore(app, configHash, live)
    requires read.Readable? ==> read.template == live
    ensures BuildTemplate(app, configHash, Resolved(app, pointer, read)) == live <==>
              read.Readable? || live.appVersion.None?
  {
  }

  /** InPlace templates never carry the version, so no outage of any kind changes them. */
  lemma InPlaceNeverRolls(app: Spec, configHash: string, v: string, w: string)
    requires app.inPlace
    ensures BuildTemplate(app, configHash, v) == BuildTemplate(app, configHash, w)
  {
  }

  /** So the pass that follows writes no template, unless it is completing a recreate begun before. */
  lemma OutageWritesNoTemplate(
    app: Spec, configHash: string, pointer: Answer, existing: Sts, worker: App, appVersion: string, f: Findings,
      w: Write)
    requires app.appVersion == AUTO && NoVersionKnown(app, pointer)
    requires BuiltBefore(app, configHash, existing.spec.template)
    requires existing.hash == Some(Fingerprint(existing.spec.template))
    requires var desired := BuildTemplate(app, configHash, Resolved(app, pointer, Readable(existing.spec.template)));
             Decide(worker, desired, appVersion, existing, f).write == Some(w)
    ensures w.kind != Freeze && (w.kind == Restart || w.kind == Drain ==> existing.recreating)
    ensures w.sts.spec.template == existing.spec.template && w.sts.hash == existing.hash
  {
  }

  /** And when the tracker still holds a version read under this identity, the outage changes nothing about it. */
  lemma OutageHoldsVersion(app: Spec, cached: Entry, identity: Identity, now: int, live: LiveRead)
    requires app.appVersion == AUTO && app.s3 && cached.identity == identity && cached.version != ""
    ensures Resolved(app, Served(NewEntry(Some(cached), Err, identity, now)), live)
              == Resolved(app, Served(cached), live) == cached.version
  {
  }
}

/** When two pod templates may run in one fleet, and which runtime changes are refused outright. */
module Compatibility {
  import opened Prelude
  import opened GoText
  import opened Versions
  import opened ImageTags

  /**
    A pod template: the celld container's image, its CELLD_DURABILITY variable, the two
    annotations the rollout reads, and everything else the spec renders into it.
   */
  datatype Template = Template(
    image: string,
    durability: Option<string>,
    appVersion: Option<string>,
    configHash: Option<string>,
    rest: string)

  const BUCKET_DURABILITY: string := "bucket"

  /** usesFleetDurability: celld defaults to fleet when the variable is absent. */
  predicate UsesFleetDurability(t: Template) { t.durability != Some(BUCKET_DURABILITY) }

  const V06: Minor := Minor(0, 6)

  /** What decides compatibility: the version the image tag names, if any, and the durability proof. */
  datatype Runtime = Runtime(version: Option<Minor>, fleetDurable: bool)

  function RuntimeOf(t: Template): Runtime { Runtime(MinorOf(t.image), UsesFleetDurability(t)) }

  /** Why a rolling change is unsafe, if it is. */
  datatype Hazard = Safe | CrossedBoundary | ReplicationStreams

  predicate Crosses06(from: Minor, to: Minor) { Before(from, V06) != Before(to, V06) }

  /** A tag that does not parse raises no hazard. */
  function RuntimeHazard(from: Runtime, to: Runtime): Hazard {
    if from.version.None? || to.version.None? then Safe
    else
      var f, t := from.version.value, to.version.value;
      if AnyFlagged(f, t) then CrossedBoundary
      else if Crosses06(f, t) && (from.fleetDurable || to.fleetDurable) then ReplicationStreams
      else Safe
  }

  /** fleetBreakingReason. */
  function FleetHazard(from: Template, to: Template): Hazard { RuntimeHazard(RuntimeOf(from), RuntimeOf(to)) }

  /** A fleet may roll from one template to the other. */
  predicate Compatible(from: Template, to: Template) { FleetHazard(from, to) == Safe }

  /** breakingReason and fleetBreakingReason as they run: the table loop, then the durability rule. */
  method FleetBreakingReason(from: Template, to: Template) returns (hazard: Hazard)
    ensures hazard == FleetHazard(from, to)
  {
    var f, t := RuntimeOf(from), RuntimeOf(to);
    if f.version.None? || t.version.None? {
      return Safe;
    }
    var fv, tv := f.version.value, t.version.value;
    var reasons := CollectReasons(fv, tv);
    if reasons != [] {
      return CrossedBoundary;
    }
    var crosses := (Cmp(fv, V06) < 0 && Cmp(tv, V06) >= 0) || (Cmp(fv, V06) >= 0 && Cmp(tv, V06) < 0);
    if crosses && (f.fleetDurable || t.fleetDurable) {
      return ReplicationStreams;
    }
    return Safe;
  }

  /**
    Exactly which templates may share a fleet: if both tags name a version, the versions are of one release line or go
    from 0.2 up to 0.3, and if they lie on different sides of 0.6, both templates ask for bucket durability.
   */
  lemma CompatibleIff(s: Template, t: Template)
    ensures Compatible(s, t) <==>
            || MinorOf(s.image) == None || MinorOf(t.image) == None
            || var f, g := MinorOf(s.image).value, MinorOf(t.image).value;
               && (Line(f) == Line(g) || (Line(f) == 1 && Line(g) == 2))
               && (AtLeast(f, 6) == AtLeast(g, 6) || (s.durability == t.durability == Some("bucket")))
  {
    if MinorOf(s.image).Some? && MinorOf(t.image).Some? {
      FlaggedIff(MinorOf(s.image).value, MinorOf(t.image).value);
      BeforeIff(MinorOf(s.image).value, 6);
      BeforeIff(MinorOf(t.image).value, 6);
    }
  }

  /** Templates that run the same runtime are compatible, whatever else differs. */
  lemma SameRuntimeCompatible(s: Template, t: Template)
    requires RuntimeOf(s) == RuntimeOf(t)
    ensures Compatible(s, t)
  {
    if MinorOf(t.image).Some? {
      SameVersionCrossesNothing(MinorOf(t.image).value);
    }
  }

  const V03: Minor := Minor(0, 3)

  datatype Refusal = Allowed | Downgrade | UnrecognizedImage

  /** runtimeChangeRefusal for a live image, a desired image and whether the spec says Recreate. */
  function RuntimeChangeRefusal(oldImage: string, image: string, recreate: bool): Refusal {
    var from, to := MinorOf(oldImage), MinorOf(image);
    if from.Some? && to.Some? && !Before(from.value, V03) && Before(to.value, V03) then Downgrade
    else if oldImage != image && (from.None? || to.None?) && !recreate then UnrecognizedImage
    else Allowed
  }

  /**
    Exactly which changes of the image are refused outright: from 0.3 or later to before it, whatever the strategy; and
    under Rolling any change to or from an image whose tag names no version.
   */
  lemma RefusedIff(oldImage: string, image: string, recreate: bool)
    ensures RuntimeChangeRefusal(oldImage, image, recreate) != Allowed <==>
            var from, to := MinorOf(oldImage), MinorOf(image);
            if from.Some? && to.Some? then AtLeast(from.value, 3) && !AtLeast(to.value, 3)
            else oldImage != image && !recreate
  {
    var from, to := MinorOf(oldImage), MinorOf(image);
    if from.Some? && to.Some? {
      BeforeIff(from.value, 3);
      BeforeIff(to.value, 3);
    }
  }

  /** Between recognized images only a move from 0.3 or later to before it is refused. */
  lemma UpgradeAllowed(oldImage: string, image: string, from: Minor, to: Minor, recreate: bool)
    requires MinorOf(oldImage) == Some(from) && MinorOf(image) == Some(to) && !Before(to, V03)
    ensures RuntimeChangeRefusal(oldImage, image, recreate) == Allowed
  {
  }

  /** And no image is refused in place of itself. */
  lemma SameImageAllowed(image: string, recreate: bool)
    ensures RuntimeChangeRefusal(image, image, recreate) == Allowed
  {
  }

  /** The image of a plain celld release. */
  function ReleaseImage(major: nat, minor: nat): string {
    "celld:v" + Decimal(major) + "." + Decimal(minor) + ".0"
  }

  /** The validator accepts every release image. */
  lemma ReleaseImageAccepted(major: nat, minor: nat) returns (p: TagParts)
    ensures AcceptedAs(ReleaseImage(major, minor), p)
    ensures p.major == Decimal(major) && p.minor == Decimal(minor)
  {
    p := TagParts("v", Decimal(major), Decimal(minor), "0", "");
    assert AllDigits("0");
    assert ReleaseImage(major, minor) == "celld" + [':'] + p.Text();
    TagHasNoColon(p);
    TagOfPlainName("celld", p.Text());
  }

  /** A release image reads back as the version it was made from. */
  lemma ReleaseImageReads(major: nat, minor: nat)
    requires major <= MAX_INT64 && minor <= MAX_INT64
    ensures AcceptedImage(ReleaseImage(major, minor))
    ensures MinorOf(ReleaseImage(major, minor)) == Some(Minor(major, minor))
  {
    var p := ReleaseImageAccepted(major, minor);
    ReadersAgree(ReleaseImage(major, minor), p);
  }

  lemma TagLacks(p: TagParts)
    requires p.Valid()
    ensures Lacks(p.Text(), '/') && Lacks(p.Text(), '@')
  {
  }

  /** An image whose tag has valid parts is accepted, and reads as their first two numbers if they fit. */
  lemma PlainImageReads(p: TagParts)
    requires p.Valid() && p.FitsInt()
    ensures AcceptedImage("celld" + [':'] + p.Text())
    ensures MinorOf("celld" + [':'] + p.Text()) == Some(Minor(Value(p.major), Value(p.minor)))
  {
    TagHasNoColon(p);
    TagLacks(p);
    TagOfPlainName("celld", p.Text());
    assert AcceptedAs("celld" + [':'] + p.Text(), p);
    ReadersAgree("celld" + [':'] + p.Text(), p);
  }

  predicate IsTagChar(c: char) { 'a' <= c <= 'z' || 'A' <= c <= 'Z' || '0' <= c <= '9' || c == '.' || c == '-' }

  /**
    Any patch release, with or without the v, is accepted under any pre-release, build or vendor suffix, and reads as
    the version of its first two numbers.
   */
  lemma SuffixedImageReads(v: string, major: nat, minor: nat, patch: nat, mark: char, text: string)
    requires (v == "" || v == "v") && major <= MAX_INT64 && minor <= MAX_INT64
    requires mark in "-+." && text != "" && forall i :: 0 <= i < |text| ==> IsTagChar(text[i])
    ensures var tag := TagParts(v, Decimal(major), Decimal(minor), Decimal(patch), [mark] + text).Text();
            AcceptedImage("celld" + [':'] + tag) && MinorOf("celld" + [':'] + tag) == Some(Minor(major, minor))
  {
    PlainImageReads(TagParts(v, Decimal(major), Decimal(minor), Decimal(patch), [mark] + text));
  }

  lemma TagOfPlainName(base: string, tag: string)
    requires Lacks(base, ':') && Lacks(base, '/') && Lacks(base, '@')
    requires Lacks(tag, ':') && Lacks(tag, '/') && Lacks(tag, '@')
    ensures TagOfLastElement(Undigested(base + [':'] + tag)) == Some(tag)
  {
    var name := base + [':'] + tag;
    assert Lacks(name, '@') && Lacks(name, '/');
    assert IndexFrom(name, '@', 0) == -1;
    assert LastIndex(name, '/') == -1;
    assert name[0..] == name;
    CutAt(base, ':', tag);
  }

  /** The version table cannot be laundered by hops between parsed runtimes. */
  lemma TableHazardHasHop(chain: seq<Runtime>) returns (i: int)
    requires chain != [] && forall k :: 0 <= k < |chain| ==> chain[k].version.Some?
    requires RuntimeHazard(chain[0], chain[|chain| - 1]) == CrossedBoundary
    ensures 0 <= i < |chain| - 1
    ensures RuntimeHazard(chain[i], chain[i + 1]) == CrossedBoundary
  {
    var versions := seq(|chain|, k requires 0 <= k < |chain| => chain[k].version.value);
    var b :| b in BREAKING_BOUNDARIES && Flagged(b, versions[0], versions[|versions| - 1]);
    i := FlaggedChangeHasFlaggedHop(b, versions);
  }

  /** The position of the one hop that crosses v0.6, when the whole chain does. */
  lemma {:induction false} Hop06(chain: seq<Runtime>) returns (i: int)
    requires chain != [] && forall k :: 0 <= k < |chain| ==> chain[k].version.Some?
    requires Crosses06(chain[0].version.value, chain[|chain| - 1].version.value)
    ensures 0 <= i < |chain| - 1 && Crosses06(chain[i].version.value, chain[i + 1].version.value)
  {
    if Crosses06(chain[0].version.value, chain[1].version.value) {
      i := 0;
    } else {
      var rest := chain[1..];
      assert rest[|rest| - 1] == chain[|chain| - 1];
      var j := Hop06(rest);
      i := j + 1;
    }
  }

  /** A chain of runtimes that keeps one durability proof cannot hide any hazard between its ends. */
  lemma FixedDurabilityIsNotLaundered(chain: seq<Runtime>) returns (i: int)
    requires chain != [] && forall k :: 0 <= k < |chain| ==> chain[k].version.Some?
    requires forall k :: 0 <= k < |chain| ==> chain[k].fleetDurable == chain[0].fleetDurable
    requires RuntimeHazard(chain[0], chain[|chain| - 1]) != Safe
    ensures 0 <= i < |chain| - 1 && RuntimeHazard(chain[i], chain[i + 1]) != Safe
  {
    var hazard := RuntimeHazard(chain[0], chain[|chain| - 1]);
    if hazard == CrossedBoundary {
      i := TableHazardHasHop(chain);
    } else {
      i := Hop06(chain);
      assert chain[i].fleetDurable == chain[0].fleetDurable;
    }
  }

  lemma RollsFrom05To06()
    ensures !AnyFlagged(Minor(0, 5), Minor(0, 6)) && !AnyFlagged(Minor(0, 5), Minor(0, 5))
  {
  }

  /** Switching to bucket proofs first launders it: both hops are safe, the direct change is not. */
  lemma DurabilityHazardIsLaundered() returns (a: Template, b: Template, c: Template)
    ensures RuntimeOf(a) == Runtime(Some(Minor(0, 5)), true)
    ensures RuntimeOf(b) == Runtime(Some(Minor(0, 5)), false)
    ensures RuntimeOf(c) == Runtime(Some(Minor(0, 6)), false)
    ensures AcceptedImage(a.image) && AcceptedImage(b.image) && AcceptedImage(c.image)
    ensures Compatible(a, b) && Compatible(b, c) && FleetHazard(a, c) == ReplicationStreams
  {
    var v05, v06 := ReleaseImage(0, 5), ReleaseImage(0, 6);
    ReleaseImageReads(0, 5);
    ReleaseImageReads(0, 6);
    a := Template(v05, Some("fleet"), None, None, "");
    b := Template(v05, Some(BUCKET_DURABILITY), None, None, "");
    c := Template(v06, Some(BUCKET_DURABILITY), None, None, "");
    RollsFrom05To06();
  }
}

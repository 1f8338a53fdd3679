/**
  A run of validated specs that stores a template below the version floor: two recreates, over a version too
  large for Go's int.
 */
module FloorBreach {
  import opened Prelude
  import opened GoText
  import opened Versions
  import opened ImageTags
  import opened Compatibility
  import opened Census
  import opened Rollout
  import opened Protocol
  import opened Reach
  import History

  /** A fleet created at the floor, recreated onto an image that does not parse, and from there below the floor. */
  lemma StoneBreaksFloor(
    policy: Policy, a: Template, b: Template, c: Template, n: nat)
    returns (s: System, m: System, t: System)
    requires n >= 1 && a != b && b != c && !policy.refused(a.image, b.image, true)
    requires !policy.refused(b.image, c.image, true)
    ensures Init(s) && s.Live().sts.spec.template == a && Leads(policy, Freely, s, m) && Leads(policy, Freely, m, t)
    ensures m.Wf() && m.Live().sts.spec.template == b && t.Wf() && t.Live().sts.spec.template == c
  {
    s := Created(a, n);
    m := Recreates(policy, s, b, n);
    t := Recreates(policy, m, c, n);
  }

  lemma Refused(a: Template, b: Template)
    ensures CelldPolicy().refused(a.image, b.image, true) == (RuntimeChangeRefusal(a.image, b.image, true) != Allowed)
  {
  }

  function Plain(image: string): Template { Template(image, Some(BUCKET_DURABILITY), None, None, "") }

  lemma FloorImages() returns (from: string, stone: string, to: string)
    ensures AcceptedImage(from) && AcceptedImage(stone) && AcceptedImage(to) && from != stone && stone != to
    ensures History.AtFloor(from) && History.Parses(to) && !History.AtFloor(to)
    ensures RuntimeChangeRefusal(from, stone, true) == Allowed && RuntimeChangeRefusal(stone, to, true) == Allowed
  {
    from, to := ReleaseImage(0, 3), ReleaseImage(0, 2);
    ReleaseImageReads(0, 3);
    ReleaseImageReads(0, 2);
    stone := History.OversizedVersionIsStone();
    History.SteppingStoneIff(from, stone, to);
  }

  /** So accepted images alone do not keep a fleet of any size at or above v0.3. */
  lemma AcceptedImagesBreakFloor(n: nat) returns (s: System, t: System)
    requires n >= 1
    ensures Init(s) && AcceptedImage(History.ImageOf(s.Live())) && History.AtFloor(History.ImageOf(s.Live()))
    ensures Leads(CelldPolicy(), Freely, s, t) && t.Wf()
    ensures AcceptedImage(History.ImageOf(t.Live())) && History.Parses(History.ImageOf(t.Live()))
    ensures !History.AtFloor(History.ImageOf(t.Live()))
  {
    var from, stone, to := FloorImages();
    var a, b, c := Plain(from), Plain(stone), Plain(to);
    Refused(a, b);
    Refused(b, c);
    var m;
    s, m, t := StoneBreaksFloor(CelldPolicy(), a, b, c, n);
    LeadsTrans(CelldPolicy(), Freely, s, m, t);
  }
}

/** Two readers of one image string: the validator's tag pattern and minorOf's splitting. */
module ImageTags {
  import opened Prelude
  import opened GoText
  import opened Versions

  /** The image without its digest. */
  function Undigested(image: string): string { Cut(image, '@').before }

  /** The tag as minorOf cuts it: what follows the last colon. */
  function TagAfterLastColon(name: string): Option<string> {
    var idx := LastIndex(name, ':');
    if idx < 0 then None else Some(name[idx + 1..])
  }

  /** The tag as validateApp cuts it: what follows the first colon of the last path element. */
  function TagOfLastElement(name: string): Option<string> {
    var halves := Cut(name[LastIndex(name, '/') + 1..], ':');
    if halves.found then Some(halves.after) else None
  }

  /** minorOf: the "major.minor" of an image tag, when it has one. */
  function MinorOf(image: string): Option<Minor> {
    var tag := TagAfterLastColon(Undigested(image));
    if tag.None? then None
    else
      var parts := SplitDots3(TrimV(tag.value));
      if |parts| < 2 then None
      else
        var major := Atoi(parts[0]);
        var minor := Atoi(parts[1]);
        if major.None? || minor.None? then None else Some(Minor(major.value, minor.value))
  }

  /** A tag of the form minorOf reads: an optional v, two numbers, and at most more after another dot. */
  predicate ReadsAs(tag: string, v: string, major: string, minor: string, tail: string) {
    && tag == v + (major + ['.'] + (minor + tail)) && (v == "v" || (v == "" && (major == "" || major[0] != 'v')))
    && (tail == "" || tail[0] == '.') && Lacks(major, '.') && Lacks(minor, '.')
  }

  /** An image so tagged has the version its two numbers name, if they are numbers Go can read, and none otherwise. */
  lemma MinorOfReads(
    image: string, name: string, digest: string, base: string, tag: string,
    v: string, major: string, minor: string, tail: string)
    requires Lacks(name, '@') && (image == name || image == name + "@" + digest)
    requires name == base + ":" + tag && Lacks(tag, ':') && ReadsAs(tag, v, major, minor, tail)
    ensures MinorOf(image)
         == if Atoi(major).Some? && Atoi(minor).Some? then Some(Minor(Atoi(major).value, Atoi(minor).value)) else None
  {
    UndigestedName(image, name, digest);
    TagFound(name, base, tag);
    TrimTag(v, major + ['.'] + (minor + tail));
    SplitTwo(major, minor, tail);
  }

  lemma UndigestedName(image: string, name: string, digest: string)
    requires Lacks(name, '@') && (image == name || image == name + "@" + digest)
    ensures Undigested(image) == name
  {
    if image != name {
      CutAt(name, '@', digest);
      assert image == name + ['@'] + digest;
    }
  }

  lemma TagFound(name: string, base: string, tag: string)
    requires name == base + ":" + tag && Lacks(tag, ':')
    ensures TagAfterLastColon(name) == Some(tag)
  {
    assert name[|base|] == ':' && name[|base| + 1..] == tag;
    assert forall k :: |base| < k < |name| ==> name[k] == tag[k - |base| - 1];
    assert LastIndex(name, ':') == |base|;
  }

  lemma TrimTag(v: string, bare: string)
    requires (v == "" && (bare == "" || bare[0] != 'v')) || v == "v"
    ensures TrimV(v + bare) == bare
  {
    if v == "v" {
      assert (v + bare)[1..] == bare;
    } else {
      assert v + bare == bare;
    }
  }

  lemma SplitTwo(major: string, minor: string, tail: string)
    requires (tail == "" || tail[0] == '.') && Lacks(major, '.') && Lacks(minor, '.')
    ensures var parts := SplitDots3(major + ['.'] + (minor + tail));
            |parts| >= 2 && parts[0] == major && parts[1] == minor
  {
    CutAt(major, '.', minor + tail);
    if tail == "" {
      assert minor + tail == minor;
    } else {
      assert minor + tail == minor + ['.'] + tail[1..];
      CutAt(minor, '.', tail[1..]);
    }
  }

  predicate IsSuffixChar(c: char) {
    'a' <= c <= 'z' || 'A' <= c <= 'Z' || '0' <= c <= '9' || c == '.' || c == '-'
  }

  /** The optional last group of the tag pattern. */
  predicate IsSuffix(s: string) {
    s == "" ||
    (|s| >= 2 && (s[0] == '-' || s[0] == '.' || s[0] == '+') && forall i :: 1 <= i < |s| ==> IsSuffixChar(s[i]))
  }

  predicate IsNumber(s: string) { s != "" && AllDigits(s) }

  /** The pieces of a tag the pattern `v?N.N.N(suffix)?` accepts. */
  datatype TagParts = TagParts(v: string, major: string, minor: string, patch: string, suffix: string) {
    predicate Valid() {
      (v == "" || v == "v") && IsNumber(major) && IsNumber(minor) && IsNumber(patch) && IsSuffix(suffix)
    }

    function Text(): string { v + major + "." + minor + "." + patch + suffix }

    /** Both numbers fit Go's int, which is what strconv.Atoi needs. */
    predicate FitsInt()
      requires Valid()
    {
      Value(major) <= MAX_INT64 && Value(minor) <= MAX_INT64
    }
  }

  /** validateApp accepts the image, reading its tag as p. */
  predicate AcceptedAs(image: string, p: TagParts) {
    p.Valid() && TagOfLastElement(Undigested(image)) == Some(p.Text())
  }

  /** validateApp's image check. */
  ghost predicate AcceptedImage(image: string) { exists p :: AcceptedAs(image, p) }

  lemma TagHasNoColon(p: TagParts)
    requires p.Valid()
    ensures Lacks(p.Text(), ':')
  {
  }

  /** Both readers cut the same tag out of a name, whatever its registry, port or path. */
  lemma SameTag(name: string, tag: string)
    requires TagOfLastElement(name) == Some(tag) && Lacks(tag, ':')
    ensures TagAfterLastColon(name) == Some(tag)
  {
  }

  lemma SplitNumbers(major: string, minor: string, tail: string)
    requires IsNumber(major) && IsNumber(minor)
    ensures SplitDots3(major + ['.'] + (minor + ['.'] + tail)) == [major, minor, tail]
  {
    CutAt(major, '.', minor + ['.'] + tail);
    CutAt(minor, '.', tail);
  }

  lemma TrimmedTag(p: TagParts)
    requires p.Valid()
    ensures TrimV(p.Text()) == p.major + ['.'] + (p.minor + ['.'] + (p.patch + p.suffix))
  {
    var bare := p.major + ['.'] + (p.minor + ['.'] + (p.patch + p.suffix));
    assert p.Text() == p.v + bare;
    assert bare[0] == p.major[0];
    if p.v == "" {
      assert p.v + bare == bare;
    } else {
      assert (p.v + bare)[1..] == bare;
    }
  }

  lemma AtoiOfNumber(s: string)
    requires IsNumber(s)
    ensures Atoi(s) == if Value(s) <= MAX_INT64 then Some(Value(s)) else None
  {
  }

  /**
    The two readers agree: for every image the validator accepts, minorOf returns the first
    two numbers of the tag the validator saw exactly when both fit Go's int, and nothing otherwise.
   */
  lemma ReadersAgree(image: string, p: TagParts)
    requires AcceptedAs(image, p)
    ensures MinorOf(image) ==
            if p.FitsInt() then Some(Minor(Value(p.major), Value(p.minor))) else None
  {
    var tag := p.Text();
    TagHasNoColon(p);
    SameTag(Undigested(image), tag);
    TrimmedTag(p);
    SplitNumbers(p.major, p.minor, p.patch + p.suffix);
    AtoiOfNumber(p.major);
    AtoiOfNumber(p.minor);
  }

  /** An accepted image therefore parses exactly when its numbers fit, and never to a negative version. */
  lemma AcceptedImageParses(image: string)
    requires AcceptedImage(image)
    ensures MinorOf(image).Some? <==> exists p :: AcceptedAs(image, p) && p.FitsInt()
    ensures MinorOf(image).Some? ==> MinorOf(image).value.major >= 0 && MinorOf(image).value.minor >= 0
  {
    var p :| AcceptedAs(image, p);
    ReadersAgree(image, p);
    if q :| AcceptedAs(image, q) && q.FitsInt() {
      ReadersAgree(image, q);
    }
  }
}

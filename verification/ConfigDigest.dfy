/** The bytes fed to the config digest: which changes of the referenced Secrets they show. */
module ConfigDigest {
  import opened Prelude

  newtype Byte = x: int | 0 <= x < 256

  type Bytes = seq<Byte>

  /** A Secret's data. */
  type Secret = map<Bytes, Bytes>

  /** The Secrets of the namespace, by name. */
  type Cluster = map<Bytes, Secret>

  /** "missing" and "secret". */
  const MISSING: Bytes := [109, 105, 115, 115, 105, 110, 103]
  const SECRET: Bytes := [115, 101, 99, 114, 101, 116]

  predicate NulFree(p: Bytes) { forall i :: 0 <= i < |p| ==> p[i] != 0 }

  predicate NulFreeData(s: Secret) { forall k :: k in s ==> NulFree(k) && NulFree(s[k]) }

  // ----- keys in byte order -----

  predicate Less(a: Bytes, b: Bytes) {
    b != [] && (a == [] || a[0] < b[0] || (a[0] == b[0] && Less(a[1..], b[1..])))
  }

  lemma {:induction false} LessTotal(a: Bytes, b: Bytes)
    ensures a == b || Less(a, b) || Less(b, a)
  {
    if a == [] || b == [] || a[0] != b[0] {
    } else {
      LessTotal(a[1..], b[1..]);
      assert a == [a[0]] + a[1..] && b == [b[0]] + b[1..];
    }
  }

  lemma {:induction false} LessAsymmetric(a: Bytes, b: Bytes)
    requires Less(a, b)
    ensures !Less(b, a)
  {
    if a == [] || a[0] != b[0] {
    } else {
      LessAsymmetric(a[1..], b[1..]);
    }
  }

  lemma {:induction false} LessTransitive(a: Bytes, b: Bytes, c: Bytes)
    requires Less(a, b) && Less(b, c)
    ensures Less(a, c)
  {
    if a == [] || a[0] != b[0] || b[0] != c[0] {
    } else {
      LessTransitive(a[1..], b[1..], c[1..]);
    }
  }

  predicate IsFirst(k: Bytes, keys: set<Bytes>) { k in keys && forall j :: j in keys ==> j == k || Less(k, j) }

  lemma {:induction false} SomeFirst(keys: set<Bytes>)
    requires keys != {}
    ensures exists k :: IsFirst(k, keys)
    decreases |keys|
  {
    var k :| k in keys;
    var others := keys - {k};
    if others == {} {
      assert keys == {k} && IsFirst(k, keys);
    } else {
      SomeFirst(others);
      var first :| IsFirst(first, others);
      LessTotal(first, k);
      if Less(first, k) {
        assert IsFirst(first, keys);
      } else {
        forall j | j in keys ensures j == k || Less(k, j) {
          if j != k && j != first { LessTransitive(k, first, j); }
        }
        assert IsFirst(k, keys);
      }
    }
  }

  lemma FirstIsUnique(j: Bytes, k: Bytes, keys: set<Bytes>)
    requires IsFirst(j, keys) && IsFirst(k, keys)
    ensures j == k
  {
    if j != k { LessAsymmetric(j, k); }
  }

  function First(keys: set<Bytes>): (k: Bytes)
    requires keys != {}
    ensures IsFirst(k, keys)
  {
    SomeFirst(keys);
    assert forall j, k :: IsFirst(j, keys) && IsFirst(k, keys) ==> j == k by {
      forall j, k | IsFirst(j, keys) && IsFirst(k, keys) ensures j == k { FirstIsUnique(j, k, keys); }
    }
    var k :| k in keys && IsFirst(k, keys);
    k
  }

  // ----- the encoding -----

  /** One part as it is written: its bytes and a NUL. */
  function Part(p: Bytes): Bytes { p + [0] }

  /** Parts one after the other. */
  function Join(parts: seq<Bytes>): Bytes { if parts == [] then [] else Part(parts[0]) + Join(parts[1..]) }

  /** The keys and values under these keys, in key order. */
  function Entries(s: Secret, keys: set<Bytes>): (parts: seq<Bytes>)
    requires keys <= s.Keys
    ensures keys != {} ==> |parts| >= 2
    decreases |keys|
  {
    if keys == {} then []
    else
      var k := First(keys);
      [k, s[k]] + Entries(s, keys - {k})
  }

  function Find(cluster: Cluster, name: Bytes): Option<Secret> { if name in cluster then Some(cluster[name]) else None }

  function RefBytes(name: Bytes, secret: Option<Secret>): Bytes {
    match secret
    case None => Part(MISSING) + Part(name)
    case Some(s) => Part(SECRET) + Part(name) + Join(Entries(s, s.Keys))
  }

  /** What the first n references feed to the digest. */
  function InputTo(refs: seq<Bytes>, cluster: Cluster, n: nat): Bytes
    requires n <= |refs|
  {
    if n == 0 then [] else InputTo(refs, cluster, n - 1) + RefBytes(refs[n - 1], Find(cluster, refs[n - 1]))
  }

  /** What the digest is taken of. */
  function Input(refs: seq<Bytes>, cluster: Cluster): Bytes { InputTo(refs, cluster, |refs|) }

  /** Reading one of the first n references fails. */
  predicate ReadsFail(refs: seq<Bytes>, failing: set<Bytes>, n: nat)
    requires n <= |refs|
  {
    exists i :: 0 <= i < n && refs[i] in failing
  }

  /**
    configHash up to the digest: a loop over the references, and one over each Secret's sorted keys. A read that fails
    for any reason but absence ends it.
   */
  method ConfigBytes(refs: seq<Bytes>, cluster: Cluster, failing: set<Bytes>) returns (digest: Result<Bytes>)
    ensures digest == if ReadsFail(refs, failing, |refs|) then Err else Ok(Input(refs, cluster))
  {
    var written := [];
    for i := 0 to |refs|
      invariant written == InputTo(refs, cluster, i) && !ReadsFail(refs, failing, i)
    {
      var name := refs[i];
      if name in failing {
        assert ReadsFail(refs, failing, |refs|);
        return Err;
      }
      var bytes := WriteRef(name, cluster);
      written := written + bytes;
    }
    return Ok(written);
  }

  method WriteRef(name: Bytes, cluster: Cluster) returns (bytes: Bytes)
    ensures bytes == RefBytes(name, Find(cluster, name))
  {
    if name !in cluster {
      return Part(MISSING) + Part(name);
    }
    var body := SecretBytes(cluster[name]);
    return Part(SECRET) + Part(name) + body;
  }

  lemma JoinTwo(k: Bytes, v: Bytes, rest: seq<Bytes>)
    ensures Join([k, v] + rest) == Part(k) + Part(v) + Join(rest)
  {
  }

  method SecretBytes(s: Secret) returns (body: Bytes)
    ensures body == Join(Entries(s, s.Keys))
  {
    body := [];
    var keys := s.Keys;
    while keys != {}
      invariant keys <= s.Keys && body + Join(Entries(s, keys)) == Join(Entries(s, s.Keys))
      decreases |keys|
    {
      var k := First(keys);
      JoinTwo(k, s[k], Entries(s, keys - {k}));
      assert (body + (Part(k) + Part(s[k]))) + Join(Entries(s, keys - {k})) == body + Join(Entries(s, keys));
      body := body + (Part(k) + Part(s[k]));
      keys := keys - {k};
    }
  }

  // ----- unique decoding -----

  /** A NUL-free part can be read off the front in one way only. */
  lemma PartIsPrefixFree(p: Bytes, q: Bytes, x: Bytes, y: Bytes)
    requires NulFree(p) && NulFree(q) && Part(p) + x == Part(q) + y
    ensures p == q && x == y
  {
    var all := Part(p) + x;
    assert all[|p|] == 0 && all[|q|] == 0;
    assert p == all[..|p|] && q == all[..|q|];
    assert x == all[|p| + 1..] && y == all[|q| + 1..];
  }

  predicate AllNulFree(parts: seq<Bytes>) { forall i :: 0 <= i < |parts| ==> NulFree(parts[i]) }

  /** NUL-terminated parts decode uniquely. */
  lemma {:induction false} JoinIsInjective(a: seq<Bytes>, b: seq<Bytes>)
    requires AllNulFree(a) && AllNulFree(b) && Join(a) == Join(b)
    ensures a == b
  {
    if a == [] || b == [] {
    } else {
      PartIsPrefixFree(a[0], b[0], Join(a[1..]), Join(b[1..]));
      JoinIsInjective(a[1..], b[1..]);
      assert a == [a[0]] + a[1..] && b == [b[0]] + b[1..];
    }
  }

  lemma {:induction false} EntriesNulFree(s: Secret, keys: set<Bytes>)
    requires keys <= s.Keys && NulFreeData(s)
    ensures AllNulFree(Entries(s, keys))
    decreases |keys|
  {
    if keys == {} {
    } else {
      EntriesNulFree(s, keys - {First(keys)});
    }
  }

  /** Equal entries come from equal data. */
  lemma {:induction false} EntriesDetermineData(s: Secret, ks: set<Bytes>, t: Secret, kt: set<Bytes>)
    requires ks <= s.Keys && kt <= t.Keys && Entries(s, ks) == Entries(t, kt)
    ensures ks == kt && forall k :: k in ks ==> s[k] == t[k]
    decreases |ks|
  {
    if ks == {} || kt == {} {
    } else {
      var j := First(ks);
      assert Entries(s, ks)[0] == j && Entries(t, kt)[0] == First(kt);
      assert Entries(s, ks)[1] == s[j] && Entries(t, kt)[1] == t[j];
      assert Entries(s, ks)[2..] == Entries(s, ks - {j}) && Entries(t, kt)[2..] == Entries(t, kt - {j});
      EntriesDetermineData(s, ks - {j}, t, kt - {j});
      assert ks == (ks - {j}) + {j} && kt == (kt - {j}) + {j};
    }
  }

  lemma SecretBytesDetermineData(s: Secret, t: Secret)
    requires NulFreeData(s) && NulFreeData(t) && Join(Entries(s, s.Keys)) == Join(Entries(t, t.Keys))
    ensures s == t
  {
    EntriesNulFree(s, s.Keys);
    EntriesNulFree(t, t.Keys);
    JoinIsInjective(Entries(s, s.Keys), Entries(t, t.Keys));
    EntriesDetermineData(s, s.Keys, t, t.Keys);
  }

  lemma RefMarker(name: Bytes, secret: Option<Secret>)
    ensures RefBytes(name, secret) != []
    ensures RefBytes(name, secret)[0] == if secret.Some? then 115 else 109
  {
  }

  /** What follows the marker. */
  function RefTail(secret: Option<Secret>): Bytes {
    if secret.Some? then Join(Entries(secret.value, secret.value.Keys)) else []
  }

  lemma RefStarts(name: Bytes, secret: Option<Secret>)
    ensures RefBytes(name, secret) == Part(if secret.Some? then SECRET else MISSING) + (Part(name) + RefTail(secret))
  {
  }

  /** One reference's bytes determine its name, whatever the Secrets hold. */
  lemma RefDeterminesName(name: Bytes, a: Option<Secret>, other: Bytes, b: Option<Secret>)
    requires NulFree(name) && NulFree(other) && RefBytes(name, a) == RefBytes(other, b)
    ensures name == other && a.Some? == b.Some? && RefTail(a) == RefTail(b)
  {
    RefMarker(name, a);
    RefMarker(other, b);
    RefStarts(name, a);
    RefStarts(other, b);
    CancelLeft(Part(if a.Some? then SECRET else MISSING), Part(name) + RefTail(a), Part(other) + RefTail(b));
    PartIsPrefixFree(name, other, RefTail(a), RefTail(b));
  }

  /** And whether its Secret exists and what it holds. */
  lemma RefDeterminesSecret(name: Bytes, a: Option<Secret>, b: Option<Secret>)
    requires (a.Some? ==> NulFreeData(a.value)) && (b.Some? ==> NulFreeData(b.value))
    requires RefBytes(name, a) == RefBytes(name, b)
    ensures a == b
  {
    RefMarker(name, a);
    RefMarker(name, b);
    if a.Some? {
      var head := Part(SECRET) + Part(name);
      CancelLeft(head, Join(Entries(a.value, a.value.Keys)), Join(Entries(b.value, b.value.Keys)));
      SecretBytesDetermineData(a.value, b.value);
    }
  }

  // ----- rotation -----

  /** Only the Secret of this name differs, and it does: changed, created or deleted. */
  predicate OnlyDiffers(name: Bytes, a: Cluster, b: Cluster) {
    && Find(a, name) != Find(b, name)
    && (forall n :: n in a && n != name ==> n in b && a[n] == b[n])
    && (forall n :: n in b && n != name ==> n in a)
  }

  predicate NulFreeCluster(c: Cluster) { forall n :: n in c ==> NulFreeData(c[n]) }

  /** The length of a reference list's bytes cannot hide a change: equal inputs with equal tails have equal heads. */
  lemma CancelRight(x: Bytes, y: Bytes, tail: Bytes)
    requires x + tail == y + tail
    ensures x == y
  {
    assert |x| == |y|;
    assert x == (x + tail)[..|x|] && y == (y + tail)[..|y|];
  }

  lemma CancelLeft(head: Bytes, x: Bytes, y: Bytes)
    requires head + x == head + y
    ensures x == y
  {
    assert x == (head + x)[|head|..] && y == (head + y)[|head|..];
  }

  lemma CancelTwice(x: Bytes, y: Bytes)
    requires x + x == y + y
    ensures x == y
  {
    assert |x + x| == |x| + |x| && |y + y| == |y| + |y|;
    assert x == (x + x)[..|x|] && y == (y + y)[..|y|];
  }

  lemma InputOfTwo(refs: seq<Bytes>, c: Cluster)
    requires 1 <= |refs| <= 2
    ensures |refs| == 1 ==> Input(refs, c) == RefBytes(refs[0], Find(c, refs[0]))
    ensures |refs| == 2 ==> Input(refs, c) == RefBytes(refs[0], Find(c, refs[0])) + RefBytes(refs[1], Find(c, refs[1]))
  {
    var first := RefBytes(refs[0], Find(c, refs[0]));
    assert InputTo(refs, c, 1) == [] + first == first;
  }

  /** Whichever of the two references changes, or both if they are the same, their concatenation does. */
  lemma ConcatenationChanges(x: Bytes, y: Bytes, u: Bytes, v: Bytes)
    requires (x != y && (u == v || (u == x && v == y))) || (x == y && u != v)
    ensures x + u != y + v
  {
    if x + u == y + v {
      if x == y { CancelLeft(x, u, v); }
      else if u == v { CancelRight(x, y, u); }
      else { CancelTwice(x, y); }
    }
  }

  lemma RefChanges(name: Bytes, a: Option<Secret>, b: Option<Secret>)
    requires (a.Some? ==> NulFreeData(a.value)) && (b.Some? ==> NulFreeData(b.value)) && a != b
    ensures RefBytes(name, a) != RefBytes(name, b)
  {
    if RefBytes(name, a) == RefBytes(name, b) { RefDeterminesSecret(name, a, b); }
  }

  /** The bytes of a reference change if and only if it is to the Secret that did. */
  lemma OneRefChanges(ref: Bytes, name: Bytes, a: Cluster, b: Cluster)
    requires OnlyDiffers(name, a, b) && NulFreeCluster(a) && NulFreeCluster(b)
    ensures RefBytes(ref, Find(a, ref)) == RefBytes(ref, Find(b, ref)) <==> ref != name
  {
    if ref == name {
      RefChanges(name, Find(a, name), Find(b, name));
    } else {
      assert Find(a, ref) == Find(b, ref);
    }
  }

  /**
    Rotation is seen: with NUL-free data, changing, creating or deleting one Secret the app refers to,
    by either or both of its references, changes the digested bytes.
   */
  lemma RotationIsSeen(refs: seq<Bytes>, name: Bytes, a: Cluster, b: Cluster)
    requires 1 <= |refs| <= 2 && name in refs && OnlyDiffers(name, a, b) && NulFreeCluster(a) && NulFreeCluster(b)
    ensures Input(refs, a) != Input(refs, b)
  {
    InputOfTwo(refs, a);
    InputOfTwo(refs, b);
    OneRefChanges(refs[0], name, a, b);
    if |refs| == 2 {
      var first, last := refs[0], refs[1];
      OneRefChanges(last, name, a, b);
      ConcatenationChanges(
        RefBytes(first, Find(a, first)), RefBytes(first, Find(b, first)),
        RefBytes(last, Find(a, last)), RefBytes(last, Find(b, last)));
    }
  }

  // ----- what the bytes cannot show -----

  lemma OneEntry(s: Secret, k: Bytes)
    requires k in s
    ensures Entries(s, {k}) == [k, s[k]]
  {
  }

  lemma TwoEntries(s: Secret, j: Bytes, k: Bytes)
    requires j in s && k in s && Less(j, k)
    ensures Entries(s, {j, k}) == [j, s[j], k, s[k]]
  {
    LessAsymmetric(j, k);
    assert IsFirst(j, {j, k});
    FirstIsUnique(j, First({j, k}), {j, k});
    assert {j, k} - {j} == {k};
    OneEntry(s, k);
  }

  /** Without the hypothesis a NUL in a value can pass for an entry of its own. */
  lemma NulHidesChange() returns (s: Secret, t: Secret)
    ensures s != t && forall name :: RefBytes(name, Some(s)) == RefBytes(name, Some(t))
  {
    var a: Bytes, b: Bytes, v: Bytes := [97], [98], [120, 0, 98, 0, 121];
    s, t := map[a := v], map[a := [120], b := [121]];
    assert s.Keys == {a} && t.Keys == {a, b} && a != b;
    OneEntry(s, a);
    TwoEntries(t, a, b);
    JoinPair(a, v);
    JoinPair(b, [121]);
    JoinTwo(a, [120], [b, [121]]);
    assert [a, [120]] + [b, [121]] == [a, [120], b, [121]];
    assert Join(Entries(s, s.Keys)) == [97, 0, 120, 0, 98, 0, 121, 0] == Join(Entries(t, t.Keys));
    assert b !in s;
  }

  lemma JoinPair(k: Bytes, v: Bytes)
    ensures Join([k, v]) == Part(k) + Part(v)
  {
    JoinTwo(k, v, []);
    assert [k, v] + [] == [k, v];
  }

  lemma RefBytesOf(name: Bytes, k: Bytes, v: Bytes)
    ensures RefBytes(name, Some(map[])) == Part(SECRET) + Part(name)
    ensures RefBytes(name, Some(map[k := v])) == Part(SECRET) + Part(name) + (Part(k) + Part(v))
  {
    var empty: Secret, one: Secret := map[], map[k := v];
    assert empty.Keys == {} && one.Keys == {k};
    OneEntry(one, k);
    JoinPair(k, v);
    assert Entries(empty, {}) == [];
  }

  lemma MoveUnseen(first: Bytes, second: Bytes, empty: Secret, moved: Secret)
    requires empty == map[] && moved == map[SECRET := second]
    ensures RefBytes(first, Some(empty)) + RefBytes(second, Some(moved))
              == RefBytes(first, Some(moved)) + RefBytes(second, Some(empty))
  {
    RefBytesOf(first, SECRET, second);
    RefBytesOf(second, SECRET, second);
    var x, y := Part(SECRET) + Part(first), Part(SECRET) + Part(second);
    assert x + (y + y) == (x + y) + y;
  }

  /** And when both Secrets change at once, an entry named like the marker can move from one to the other unseen. */
  lemma BothChangesCanHide(first: Bytes, second: Bytes) returns (a: Cluster, b: Cluster)
    requires first != second && NulFree(second)
    ensures a != b && NulFreeCluster(a) && NulFreeCluster(b) && Input([first, second], a) == Input([first, second], b)
  {
    var empty: Secret, moved: Secret := map[], map[SECRET := second];
    a, b := map[first := empty, second := moved], map[first := moved, second := empty];
    InputOfTwo([first, second], a);
    InputOfTwo([first, second], b);
    MoveUnseen(first, second, empty, moved);
    assert SECRET in moved && a[first] != b[first];
  }
}

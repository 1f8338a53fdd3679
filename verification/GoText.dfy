/** The Go string operations that the operator's tag and name handling uses. */
module GoText {
  import opened Prelude

  predicate IsDigit(c: char) { '0' <= c <= '9' }

  predicate AllDigits(s: string) { forall i :: 0 <= i < |s| ==> IsDigit(s[i]) }

  predicate Lacks(s: string, c: char) { forall k :: 0 <= k < |s| ==> s[k] != c }

  /** strings.Index for one character, from position i: -1 when there is none. */
  function IndexFrom(s: string, c: char, i: nat): (r: int)
    requires i <= |s|
    ensures r == -1 || (i <= r < |s| && s[r] == c)
    ensures forall k :: i <= k < |s| && (r < 0 || k < r) ==> s[k] != c
    decreases |s| - i
  {
    if i == |s| then -1 else if s[i] == c then i else IndexFrom(s, c, i + 1)
  }

  /** strings.LastIndex for one character, among the first n. */
  function LastIndexIn(s: string, c: char, n: nat): (r: int)
    requires n <= |s|
    ensures -1 <= r < n && (r >= 0 ==> s[r] == c)
    ensures forall k :: r < k < n ==> s[k] != c
  {
    if n == 0 then -1 else if s[n - 1] == c then n - 1 else LastIndexIn(s, c, n - 1)
  }

  function LastIndex(s: string, c: char): int { LastIndexIn(s, c, |s|) }

  datatype Halves = Halves(before: string, after: string, found: bool)

  /** strings.Cut on one character. */
  function Cut(s: string, c: char): Halves {
    var i := IndexFrom(s, c, 0);
    if i < 0 then Halves(s, "", false) else Halves(s[..i], s[i + 1..], true)
  }

  /** Where a text is split around a character its left part lacks, Cut finds that split. */
  lemma CutAt(before: string, c: char, after: string)
    requires Lacks(before, c)
    ensures Cut(before + [c] + after, c) == Halves(before, after, true)
  {
    var s := before + [c] + after;
    assert s[|before|] == c;
    assert forall k :: 0 <= k < |before| ==> s[k] == before[k];
    assert IndexFrom(s, c, 0) == |before|;
  }

  /** strings.TrimPrefix(s, "v"). */
  function TrimV(s: string): string {
    if s != "" && s[0] == 'v' then s[1..] else s
  }

  /** strings.SplitN(s, ".", 3). */
  function SplitDots3(s: string): (parts: seq<string>)
    ensures 1 <= |parts| <= 3
  {
    var first := Cut(s, '.');
    if !first.found then [s]
    else
      var second := Cut(first.after, '.');
      if !second.found then [first.before, first.after]
      else [first.before, second.before, second.after]
  }

  /** The number a run of decimal digits denotes. */
  function Value(digits: string): nat
    requires AllDigits(digits)
  {
    if digits == "" then 0
    else
      var last := |digits| - 1;
      10 * Value(digits[..last]) + (digits[last] as int - '0' as int)
  }

  /** strconv.Atoi: an optional sign, then digits, within Go's 64-bit int. */
  function Atoi(s: string): Option<int> {
    var signed := s != "" && (s[0] == '+' || s[0] == '-');
    var digits := if signed then s[1..] else s;
    if digits == "" || !AllDigits(digits) then None
    else
      var size: int := Value(digits);
      var n := if signed && s[0] == '-' then -size else size;
      if -MAX_INT64 - 1 <= n <= MAX_INT64 then Some(n) else None
  }

  /** Atoi reads signed and unsigned decimals as the numbers they denote, and rejects what Go's int cannot hold. */
  lemma AtoiReads(sign: string, digits: string)
    requires (sign == "" || sign == "+" || sign == "-") && AllDigits(digits) && digits != ""
    ensures var n := if sign == "-" then -(Value(digits) as int) else Value(digits);
            Atoi(sign + digits) == if -MAX_INT64 - 1 <= n <= MAX_INT64 then Some(n) else None
  {
    var s := sign + digits;
    if sign == "" {
      assert s == digits;
    } else {
      assert s[1..] == digits;
    }
  }

  /** The decimal text fmt's %d prints for a non-negative number. */
  function Decimal(n: nat): (s: string)
    ensures AllDigits(s) && s != ""
    ensures Value(s) == n
  {
    var digit := ('0' as int + n % 10) as char;
    if n < 10 then
      assert Value("") == 0;
      assert [digit][..0] == "";
      [digit]
    else
      var front := Decimal(n / 10);
      assert (front + [digit])[..|front|] == front;
      front + [digit]
  }
}

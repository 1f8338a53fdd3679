/** celld minor versions and the table of boundaries a rolling update must not cross. */
module Versions {

  datatype Minor = Minor(major: int, minor: int)

  /** minorVersion.cmp: the sign of the result orders by major, then by minor. */
  function Cmp(v: Minor, o: Minor): int {
    if v.major != o.major then v.major - o.major else v.minor - o.minor
  }

  predicate Before(v: Minor, o: Minor) { Cmp(v, o) < 0 }

  /** A line between two consecutive minors, with the directions that are refused. */
  datatype Boundary = Boundary(lower: Minor, upper: Minor, upward: bool, downward: bool)

  const BREAKING_BOUNDARIES: seq<Boundary> := [
    Boundary(Minor(0, 1), Minor(0, 2), true, true),
    Boundary(Minor(0, 2), Minor(0, 3), false, true),
    Boundary(Minor(0, 3), Minor(0, 4), true, true),
    Boundary(Minor(0, 4), Minor(0, 5), true, true)
  ]

  datatype Direction = Upward | Downward

  predicate Crosses(b: Boundary, d: Direction, from: Minor, to: Minor) {
    match d
    case Upward => Cmp(from, b.lower) <= 0 && Cmp(to, b.upper) >= 0
    case Downward => Cmp(from, b.upper) >= 0 && Cmp(to, b.lower) <= 0
  }

  predicate Refuses(b: Boundary, d: Direction) {
    match d
    case Upward => b.upward
    case Downward => b.downward
  }

  /** The change crosses b in a direction b refuses. */
  predicate Flagged(b: Boundary, from: Minor, to: Minor) {
    exists d :: Refuses(b, d) && Crosses(b, d, from, to)
  }

  /** The boundaries, in table order, that one change is refused for. */
  function FlaggedIn(table: seq<Boundary>, from: Minor, to: Minor): (r: seq<Boundary>)
    ensures forall b :: b in r <==> b in table && Flagged(b, from, to)
  {
    if table == [] then []
    else
      var last := |table| - 1;
      var r := FlaggedIn(table[..last], from, to);
      assert table == table[..last] + [table[last]];
      if Flagged(table[last], from, to) then r + [table[last]] else r
  }

  function FlaggedBoundaries(from: Minor, to: Minor): seq<Boundary> {
    FlaggedIn(BREAKING_BOUNDARIES, from, to)
  }

  /** Some boundary of the table is crossed in a direction it refuses. */
  predicate AnyFlagged(from: Minor, to: Minor) { exists b :: b in BREAKING_BOUNDARIES && Flagged(b, from, to) }

  lemma ReasonsIffFlagged(from: Minor, to: Minor)
    ensures FlaggedBoundaries(from, to) != [] <==> AnyFlagged(from, to)
  {
    var r := FlaggedBoundaries(from, to);
    if r != [] {
      assert r[0] in r;
    }
  }

  /** breakingReason's loop over the table, for two tags that parsed. */
  method CollectReasons(from: Minor, to: Minor) returns (reasons: seq<Boundary>)
    ensures reasons == FlaggedBoundaries(from, to)
    ensures reasons != [] <==> AnyFlagged(from, to)
    ensures Ascending(reasons)
  {
    ReasonsIffFlagged(from, to);
    ReasonsInOrder(BREAKING_BOUNDARIES, from, to);
    reasons := [];
    if from == to {
      NothingFlagged(BREAKING_BOUNDARIES, from);
      return;
    }
    var table := BREAKING_BOUNDARIES;
    for i := 0 to |table|
      invariant reasons == FlaggedIn(table[..i], from, to)
    {
      var b := table[i];
      var crossesUp := Cmp(from, b.lower) <= 0 && Cmp(to, b.upper) >= 0;
      var crossesDown := Cmp(from, b.upper) >= 0 && Cmp(to, b.lower) <= 0;
      assert crossesUp == Crosses(b, Upward, from, to);
      assert crossesDown == Crosses(b, Downward, from, to);
      assert Flagged(b, from, to) <==> (b.upward && crossesUp) || (b.downward && crossesDown) by {
        if b.upward && crossesUp { assert Refuses(b, Upward); }
        if b.downward && crossesDown { assert Refuses(b, Downward); }
      }
      assert table[..i + 1][..i] == table[..i];
      if (b.upward && crossesUp) || (b.downward && crossesDown) {
        reasons := reasons + [b];
      }
    }
    assert table[..|table|] == table;
  }

  lemma {:induction false} NothingFlagged(table: seq<Boundary>, v: Minor)
    requires forall b :: b in table ==> Before(b.lower, b.upper)
    ensures FlaggedIn(table, v, v) == []
  {
    if table == [] {
    } else {
      NothingFlagged(table[..|table| - 1], v);
      assert table[|table| - 1] in table;
    }
  }

  // ----- the table, read as release lines -----

  /** This minor of major version 0, or anything later. */
  predicate AtLeast(v: Minor, minor: int) { v.major > 0 || (v.major == 0 && v.minor >= minor) }

  lemma BeforeIff(v: Minor, minor: int)
    ensures Before(v, Minor(0, minor)) <==> !AtLeast(v, minor)
  {
  }

  /** The release line of a version: up to 0.1, then 0.2, 0.3 and 0.4, and from 0.5 on. */
  function Line(v: Minor): nat {
    if !AtLeast(v, 2) then 0 else if AtLeast(v, 5) then 4 else v.minor - 1
  }

  /** The i-th boundary is a reason exactly when it lies between the two lines, unless it is 0.2 to 0.3 upwards. */
  lemma ReasonIff(from: Minor, to: Minor, i: nat)
    requires i < |BREAKING_BOUNDARIES|
    ensures BREAKING_BOUNDARIES[i] in FlaggedBoundaries(from, to) <==>
            (Line(from) <= i < Line(to) && i != 1) || Line(to) <= i < Line(from)
  {
    var b := BREAKING_BOUNDARIES[i];
    assert Flagged(b, from, to) <==>
           || (Refuses(b, Upward) && Crosses(b, Upward, from, to))
           || (Refuses(b, Downward) && Crosses(b, Downward, from, to));
  }

  /** A change is flagged exactly when it leaves its release line, other than from 0.2 up to 0.3. */
  lemma FlaggedIff(from: Minor, to: Minor)
    ensures AnyFlagged(from, to) <==> Line(from) != Line(to) && !(Line(from) == 1 && Line(to) == 2)
  {
    forall i: nat | i < |BREAKING_BOUNDARIES|
      ensures BREAKING_BOUNDARIES[i] in FlaggedBoundaries(from, to) <==>
              (Line(from) <= i < Line(to) && i != 1) || Line(to) <= i < Line(from)
    {
      ReasonIff(from, to, i);
    }
    if Line(from) != Line(to) && !(Line(from) == 1 && Line(to) == 2) {
      var i := if Line(to) < Line(from) then Line(to) else if Line(from) == 1 then 2 else Line(from);
      assert BREAKING_BOUNDARIES[i] in FlaggedBoundaries(from, to);
    }
  }

  predicate Ascending(table: seq<Boundary>) {
    forall i, j :: 0 <= i < j < |table| ==> Before(table[i].lower, table[j].lower)
  }

  /** The reasons come in the order of the table, each once. */
  lemma {:induction false} ReasonsInOrder(table: seq<Boundary>, from: Minor, to: Minor)
    requires Ascending(table)
    ensures Ascending(FlaggedIn(table, from, to))
  {
    if table == [] {
    } else {
      var last := |table| - 1;
      ReasonsInOrder(table[..last], from, to);
      var front := FlaggedIn(table[..last], from, to);
      forall i | 0 <= i < |front| ensures Before(front[i].lower, table[last].lower) {
        assert front[i] in table[..last];
        var k :| 0 <= k < last && table[k] == front[i];
      }
      assert Ascending(front + [table[last]]);
    }
  }

  lemma SameVersionCrossesNothing(v: Minor)
    ensures !AnyFlagged(v, v)
  {
  }

  /** No version lies strictly between the two sides of a boundary of the table. */
  lemma NoVersionBetween(b: Boundary, v: Minor)
    requires b in BREAKING_BOUNDARIES
    ensures Cmp(v, b.lower) <= 0 <==> !(Cmp(v, b.upper) >= 0)
  {
  }

  /** The position of the one step of a chain that makes a given crossing. */
  ghost predicate StepCrosses(b: Boundary, d: Direction, chain: seq<Minor>, i: int) {
    0 <= i < |chain| - 1 && Crosses(b, d, chain[i], chain[i + 1])
  }

  /**
    No laundering by hops: however a change is cut into intermediate versions, in any
    order, each boundary the direct change crosses is crossed by a single hop in the same
    direction. A table boundary therefore cannot be avoided by rolling through other versions.
   */
  lemma {:induction false} NoLaundering(b: Boundary, d: Direction, chain: seq<Minor>) returns (i: int)
    requires b in BREAKING_BOUNDARIES
    requires chain != [] && Crosses(b, d, chain[0], chain[|chain| - 1])
    ensures StepCrosses(b, d, chain, i)
  {
    NoVersionBetween(b, chain[0]);
    NoVersionBetween(b, chain[|chain| - 1]);
    assert |chain| > 1;
    NoVersionBetween(b, chain[1]);
    if Crosses(b, d, chain[0], chain[1]) {
      i := 0;
    } else {
      var rest := chain[1..];
      assert rest[|rest| - 1] == chain[|chain| - 1];
      var j := NoLaundering(b, d, rest);
      i := j + 1;
    }
  }

  /** The same for the reasons that are reported: a flagged change has a hop flagged for the same boundary. */
  lemma FlaggedChangeHasFlaggedHop(b: Boundary, chain: seq<Minor>) returns (i: int)
    requires chain != [] && b in FlaggedBoundaries(chain[0], chain[|chain| - 1])
    ensures 0 <= i < |chain| - 1
    ensures b in FlaggedBoundaries(chain[i], chain[i + 1])
  {
    var d :| Refuses(b, d) && Crosses(b, d, chain[0], chain[|chain| - 1]);
    i := NoLaundering(b, d, chain);
  }

  predicate Monotone(chain: seq<Minor>) {
    || (forall i, j :: 0 <= i <= j < |chain| ==> Cmp(chain[i], chain[j]) <= 0)
    || (forall i, j :: 0 <= i <= j < |chain| ==> Cmp(chain[i], chain[j]) >= 0)
  }

  /** A hop of a monotone chain crosses only what the direct change crosses. */
  lemma HopCrossesDirectly(b: Boundary, d: Direction, chain: seq<Minor>, i: int)
    requires b in BREAKING_BOUNDARIES
    requires Monotone(chain) && StepCrosses(b, d, chain, i)
    ensures Crosses(b, d, chain[0], chain[|chain| - 1])
  {
  }

  /** For a monotone chain the direct reasons are exactly the union of the hops' reasons. */
  lemma MonotoneReasonsAreTheUnion(b: Boundary, chain: seq<Minor>)
    requires chain != [] && Monotone(chain)
    ensures b in FlaggedBoundaries(chain[0], chain[|chain| - 1]) <==>
            exists i {:trigger chain[i]} :: 0 <= i < |chain| - 1 && b in FlaggedBoundaries(chain[i], chain[i + 1])
  {
    if b in FlaggedBoundaries(chain[0], chain[|chain| - 1]) {
      var i := FlaggedChangeHasFlaggedHop(b, chain);
    }
    if i {:trigger chain[i]} :| 0 <= i < |chain| - 1 && b in FlaggedBoundaries(chain[i], chain[i + 1]) {
      var d :| Refuses(b, d) && Crosses(b, d, chain[i], chain[i + 1]);
      HopCrossesDirectly(b, d, chain, i);
    }
  }
}

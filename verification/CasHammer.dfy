/** The hammer's race: conditional writes to one key of a store, and the verdict counted from the answers. */
module CasHammer {
  import opened Prelude
  import opened GoText
  import opened Census

  /** A stored object; `serial` counts the writes of the key. */
  datatype Object = Object(body: string, serial: nat)

  type Store = Option<Object>

  /** If-None-Match: * (section 13.1.2 of RFC 9110) and If-Match (section 13.1.1). */
  datatype Condition = IfNoneMatch | IfMatch(etag: string)

  /** The store's entity tag of an object: from its content, its version, or both. */
  type Tagging = (string, nat) -> string

  predicate Holds(tag: Tagging, s: Store, cond: Condition) {
    match cond
    case IfNoneMatch => s.None?
    case IfMatch(etag) => s.Some? && tag(s.value.body, s.value.serial) == etag
  }

  /** An atomic conditional write: the check and the write are one step. */
  function Put(tag: Tagging, s: Store, cond: Condition, body: string): Store {
    if Holds(tag, s, cond) then Some(Object(body, if s.Some? then s.value.serial + 1 else 0)) else s
  }

  /** The store after the first k writers of this order. */
  function StoreAfter(tag: Tagging, s: Store, cond: Condition, bodies: seq<string>, order: seq<nat>, k: nat): Store
    requires CompletionOrder(order, |bodies|) && k <= |order|
  {
    if k == 0 then s else Put(tag, StoreAfter(tag, s, cond, bodies, order, k - 1), cond, bodies[order[k - 1]])
  }

  predicate WonAt(tag: Tagging, s: Store, cond: Condition, bodies: seq<string>, order: seq<nat>, k: nat)
    requires CompletionOrder(order, |bodies|) && k < |order|
  {
    Holds(tag, StoreAfter(tag, s, cond, bodies, order, k), cond)
  }

  /** What a writer is told. */
  datatype PutResult = Stored | PreconditionFailed | ConditionalRequestConflict | OtherError

  /** won, lost, or a hard error. */
  function Classify(r: PutResult): Result<bool> {
    match r
    case Stored => Ok(true)
    case PreconditionFailed => Ok(false)
    case ConditionalRequestConflict => Ok(false)
    case OtherError => Err
  }

  /** The answers of an atomic store that reached the writers in this order, by writer. */
  predicate AnswersOf(
    tag: Tagging, s: Store, cond: Condition, bodies: seq<string>, order: seq<nat>, answers: seq<PutResult>)
    requires CompletionOrder(order, |bodies|)
  {
    && |answers| == |bodies|
    && forall k :: 0 <= k < |order| ==>
         answers[order[k]] == if WonAt(tag, s, cond, bodies, order, k) then Stored else PreconditionFailed
  }

  // ----- the count -----

  function Wins(answers: seq<PutResult>): (c: seq<int>)
    ensures |c| == |answers|
  {
    seq(|answers|, i requires 0 <= i < |answers| => if Classify(answers[i]) == Ok(true) then 1 else 0)
  }

  predicate HardError(answers: seq<PutResult>) { exists i :: 0 <= i < |answers| && Classify(answers[i]).Err? }

  /** Only an answer outside the protocol is a hard error: neither of the two clean losses is. */
  lemma HardErrorIff(answers: seq<PutResult>)
    ensures HardError(answers) <==> OtherError in answers
  {
  }

  lemma {:induction false} WinsAreStored(answers: seq<PutResult>, n: nat)
    requires n <= |answers|
    ensures SumTo(Wins(answers), n) == multiset(answers[..n])[Stored]
  {
    if n == 0 {
    } else {
      WinsAreStored(answers, n - 1);
      assert answers[..n] == answers[..n - 1] + [answers[n - 1]];
    }
  }

  /** Exactly the answers that say the object was stored are wins. */
  lemma WinsCount(answers: seq<PutResult>)
    ensures Sum(Wins(answers)) == multiset(answers)[Stored]
  {
    WinsAreStored(answers, |answers|);
    assert answers[..|answers|] == answers;
  }

  /** One round's bookkeeping under the mutex, the answers coming back in any order. */
  method CountWinners(answers: seq<PutResult>, done: seq<nat>) returns (winners: int, hardErr: bool)
    requires CompletionOrder(done, |answers|)
    ensures hardErr == HardError(answers) && winners == Sum(Wins(answers))
    ensures (hardErr <==> OtherError in answers) && winners == multiset(answers)[Stored]
  {
    WinsCount(answers);
    winners, hardErr := 0, false;
    MaskedNone(Wins(answers), |answers|);
    assert Finished(done, 0) == {};
    for k := 0 to |done|
      invariant winners == MaskedTo(Wins(answers), Finished(done, k), |answers|)
      invariant forall i :: i in Finished(done, k) ==> 0 <= i < |answers|
      invariant hardErr <==> exists i :: i in Finished(done, k) && Classify(answers[i]).Err?
    {
      var w := done[k];
      FinishedGrows(done, |answers|, k);
      MaskedAdds(Wins(answers), Finished(done, k), w, |answers|);
      var won := Classify(answers[w]);
      if won.Err? {
        hardErr := true;
      } else if won.value {
        winners := winners + 1;
      }
    }
    forall i: nat | i < |answers| ensures i in Finished(done, |done|) {
      assert i in done;
    }
    MaskedAll(Wins(answers), Finished(done, |done|), |answers|);
  }

  function ViolationsTo(rounds: seq<seq<PutResult>>, n: nat): nat
    requires n <= |rounds|
  {
    if n == 0 then 0 else ViolationsTo(rounds, n - 1) + if Sum(Wins(rounds[n - 1])) != 1 then 1 else 0
  }

  /** The verdict of a phase; None is the exit on a hard error. */
  function PhaseVerdict(rounds: seq<seq<PutResult>>): Option<nat> {
    if exists i :: 0 <= i < |rounds| && HardError(rounds[i]) then None else Some(ViolationsTo(rounds, |rounds|))
  }

  /** The rounds in which not exactly one writer stored its object. */
  ghost function Violated(rounds: seq<seq<PutResult>>, n: nat): set<nat>
    requires n <= |rounds|
  {
    set i: nat | i < n && multiset(rounds[i])[Stored] != 1
  }

  lemma {:induction false} ViolationsAreCounted(rounds: seq<seq<PutResult>>, n: nat)
    requires n <= |rounds|
    ensures ViolationsTo(rounds, n) == |Violated(rounds, n)|
  {
    if n == 0 {
    } else {
      ViolationsAreCounted(rounds, n - 1);
      WinsCount(rounds[n - 1]);
      var last := n - 1;
      assert Violated(rounds, n)
          == Violated(rounds, last) + if multiset(rounds[last])[Stored] != 1 then {last} else {};
    }
  }

  /** The verdict over the answers alone: an exit on any other error, or the count of rounds without just one winner. */
  lemma VerdictIff(rounds: seq<seq<PutResult>>, violations: nat)
    ensures PhaseVerdict(rounds) == None <==> exists i :: 0 <= i < |rounds| && OtherError in rounds[i]
    ensures PhaseVerdict(rounds) == Some(violations) <==>
            && (forall i :: 0 <= i < |rounds| ==> OtherError !in rounds[i])
            && violations == |Violated(rounds, |rounds|)|
  {
    ViolationsAreCounted(rounds, |rounds|);
    forall i | 0 <= i < |rounds| ensures HardError(rounds[i]) <==> OtherError in rounds[i] {
      HardErrorIff(rounds[i]);
    }
  }

  /** runPhase over the answers of its rounds. */
  method RunPhase(rounds: seq<seq<PutResult>>, done: seq<seq<nat>>) returns (violations: Option<nat>)
    requires |done| == |rounds| && forall i :: 0 <= i < |rounds| ==> CompletionOrder(done[i], |rounds[i]|)
    ensures violations == PhaseVerdict(rounds)
    ensures violations == None <==> exists i :: 0 <= i < |rounds| && OtherError in rounds[i]
    ensures violations.Some? ==> violations.value == |Violated(rounds, |rounds|)|
  {
    VerdictIff(rounds, |Violated(rounds, |rounds|)|);
    var count := 0;
    for i := 0 to |rounds|
      invariant count == ViolationsTo(rounds, i)
      invariant forall j :: 0 <= j < i ==> !HardError(rounds[j])
    {
      var winners, hardErr := CountWinners(rounds[i], done[i]);
      if hardErr {
        return None;
      }
      if winners != 1 {
        count := count + 1;
      }
    }
    return Some(count);
  }

  // ----- one winner -----

  /** After the first writer has won, the condition no longer holds of what it stored. */
  predicate Fences(tag: Tagging, s: Store, cond: Condition, body: string) {
    Holds(tag, s, cond) && !Holds(tag, Put(tag, s, cond, body), cond)
  }

  /** If whatever the first writer stores fences the others off, it alone wins. */
  lemma {:induction false} FirstAloneWins(
    tag: Tagging, s: Store, cond: Condition, bodies: seq<string>, order: seq<nat>, k: nat)
    requires CompletionOrder(order, |bodies|) && k < |order| && Fences(tag, s, cond, bodies[order[0]])
    ensures WonAt(tag, s, cond, bodies, order, k) <==> k == 0
    ensures k > 0 ==> StoreAfter(tag, s, cond, bodies, order, k) == Put(tag, s, cond, bodies[order[0]])
  {
    if k == 0 {
    } else {
      FirstAloneWins(tag, s, cond, bodies, order, k - 1);
      assert StoreAfter(tag, s, cond, bodies, order, 0) == s;
    }
  }

  lemma {:induction false} OneHot(c: seq<int>, w: nat, n: nat)
    requires n <= |c| && w < |c| && forall i :: 0 <= i < |c| ==> c[i] == if i == w then 1 else 0
    ensures SumTo(c, n) == if w < n then 1 else 0
  {
    if n == 0 {
    } else {
      OneHot(c, w, n - 1);
    }
  }

  lemma ExactlyOneWinner(
    tag: Tagging, s: Store, cond: Condition, bodies: seq<string>, order: seq<nat>, answers: seq<PutResult>)
    requires CompletionOrder(order, |bodies|) && bodies != [] && AnswersOf(tag, s, cond, bodies, order, answers)
    requires Fences(tag, s, cond, bodies[order[0]])
    ensures Sum(Wins(answers)) == 1 && !HardError(answers)
  {
    forall w: nat | w < |bodies| ensures answers[w] == if w == order[0] then Stored else PreconditionFailed {
      assert w in order;
      var k :| 0 <= k < |order| && order[k] == w;
      FirstAloneWins(tag, s, cond, bodies, order, k);
      assert answers[order[k]] == if WonAt(tag, s, cond, bodies, order, k) then Stored else PreconditionFailed;
      assert k > 0 ==> order[0] != order[k];
    }
    OneHot(Wins(answers), order[0], |bodies|);
  }

  /**
    Create: whatever the store's tags and the writers' bodies, exactly one conditional create of an absent key
    wins.
   */
  lemma CreateHasOneWinner(tag: Tagging, bodies: seq<string>, order: seq<nat>, answers: seq<PutResult>)
    requires CompletionOrder(order, |bodies|) && bodies != []
    requires AnswersOf(tag, None, IfNoneMatch, bodies, order, answers)
    ensures Sum(Wins(answers)) == 1 && !HardError(answers)
  {
    ExactlyOneWinner(tag, None, IfNoneMatch, bodies, order, answers);
  }

  const SEED: string := "seed"

  function Seeded(): Store { Some(Object(SEED, 0)) }

  function SeedTag(tag: Tagging): string { tag(SEED, 0) }

  /** A strong tagging: objects with one tag have one body. */
  ghost predicate Strong(tag: Tagging) { forall a, m, b, n :: tag(a, m) == tag(b, n) ==> a == b }

  function WriterBody(w: nat): string { "writer-" + Decimal(w) }

  function WriterBodies(n: nat): (bodies: seq<string>)
    ensures |bodies| == n
  {
    seq(n, w requires w >= 0 => WriterBody(w))
  }

  /**
    Update: with strong tags, one tag read before the race, and bodies none of which is the seed, exactly one
    writer wins.
   */
  lemma UpdateHasOneWinner(tag: Tagging, n: nat, order: seq<nat>, answers: seq<PutResult>)
    requires Strong(tag) && n >= 1 && CompletionOrder(order, n)
    requires AnswersOf(tag, Seeded(), IfMatch(SeedTag(tag)), WriterBodies(n), order, answers)
    ensures Sum(Wins(answers)) == 1 && !HardError(answers)
  {
    var body := WriterBodies(n)[order[0]];
    assert body[0] == 'w' && SEED[0] == 's';
    assert Fences(tag, Seeded(), IfMatch(SeedTag(tag)), body);
    ExactlyOneWinner(tag, Seeded(), IfMatch(SeedTag(tag)), WriterBodies(n), order, answers);
  }

  // ----- exactly when -----

  /** Every order of the writers has one winner. */
  ghost predicate AlwaysOneWinner(tag: Tagging, bodies: seq<string>) {
    forall order: seq<nat>, answers: seq<PutResult> ::
      CompletionOrder(order, |bodies|) && AnswersOf(tag, Seeded(), IfMatch(SeedTag(tag)), bodies, order, answers) ==>
        Sum(Wins(answers)) == 1
  }

  function Swapped(w: nat, i: nat): nat { if i == 0 then w else if i == w then 0 else i }

  lemma SomeOrder(w: nat, n: nat) returns (order: seq<nat>)
    requires w < n
    ensures CompletionOrder(order, n) && forall i: nat :: i < n ==> order[i] == Swapped(w, i)
  {
    order := seq(n, i requires i >= 0 => Swapped(w, i));
    forall i: nat | i < n ensures i in order {
      assert order[Swapped(w, i)] == i;
    }
  }

  /** An atomic store can be reached by any writer first. */
  lemma SomeAnswers(tag: Tagging, s: Store, cond: Condition, bodies: seq<string>, w: nat, order: seq<nat>)
    returns (answers: seq<PutResult>)
    requires w < |bodies| && CompletionOrder(order, |bodies|)
    requires forall i: nat :: i < |bodies| ==> order[i] == Swapped(w, i)
    ensures AnswersOf(tag, s, cond, bodies, order, answers)
  {
    answers := seq(|bodies|, i requires 0 <= i < |bodies| =>
      if WonAt(tag, s, cond, bodies, order, Swapped(w, i)) then Stored else PreconditionFailed);
    forall k | 0 <= k < |order|
      ensures answers[order[k]] == if WonAt(tag, s, cond, bodies, order, k) then Stored else PreconditionFailed
    {
      assert Swapped(w, order[k]) == k;
    }
  }

  lemma {:induction false} AtLeast(c: seq<int>, marked: set<nat>, n: nat)
    requires n <= |c| && (forall i :: 0 <= i < |c| ==> c[i] >= 0) && forall i :: i in marked ==> i < n && c[i] == 1
    ensures SumTo(c, n) >= |marked|
  {
    if n > 0 {
      AtLeast(c, marked - {n - 1}, n - 1);
    } else {
      assert marked == {};
    }
  }

  /** A writer whose object has the seed's tag lets the next one win as well. */
  lemma SecondWins(tag: Tagging, bodies: seq<string>, order: seq<nat>, answers: seq<PutResult>)
    requires CompletionOrder(order, |bodies|) && |bodies| >= 2 && tag(bodies[order[0]], 1) == SeedTag(tag)
    requires AnswersOf(tag, Seeded(), IfMatch(SeedTag(tag)), bodies, order, answers)
    ensures Sum(Wins(answers)) >= 2
  {
    var cond := IfMatch(SeedTag(tag));
    assert StoreAfter(tag, Seeded(), cond, bodies, order, 0) == Seeded();
    assert StoreAfter(tag, Seeded(), cond, bodies, order, 1) == Some(Object(bodies[order[0]], 1));
    assert WonAt(tag, Seeded(), cond, bodies, order, 0) && WonAt(tag, Seeded(), cond, bodies, order, 1);
    assert answers[order[0]] == Stored && answers[order[1]] == Stored;
    var two := {order[0], order[1]};
    assert |two| == 2;
    AtLeast(Wins(answers), two, |bodies|);
  }

  /** The update race proves atomicity if and only if no writer can store an object with the seed's tag. */
  lemma OneWinnerIff(tag: Tagging, bodies: seq<string>)
    requires |bodies| >= 2
    ensures AlwaysOneWinner(tag, bodies) <==> forall w :: 0 <= w < |bodies| ==> tag(bodies[w], 1) != SeedTag(tag)
  {
    if forall w :: 0 <= w < |bodies| ==> tag(bodies[w], 1) != SeedTag(tag) {
      forall order: seq<nat>, answers: seq<PutResult> |
        CompletionOrder(order, |bodies|) && AnswersOf(tag, Seeded(), IfMatch(SeedTag(tag)), bodies, order, answers)
        ensures Sum(Wins(answers)) == 1
      {
        ExactlyOneWinner(tag, Seeded(), IfMatch(SeedTag(tag)), bodies, order, answers);
      }
    } else {
      var w :| 0 <= w < |bodies| && tag(bodies[w], 1) == SeedTag(tag);
      var order := SomeOrder(w, |bodies|);
      var answers := SomeAnswers(tag, Seeded(), IfMatch(SeedTag(tag)), bodies, w, order);
      SecondWins(tag, bodies, order, answers);
    }
  }

  /** A phase counts no violation if and only if each of its rounds had exactly one winner. */
  lemma {:induction false} NoViolationIff(rounds: seq<seq<PutResult>>, n: nat)
    requires n <= |rounds|
    ensures ViolationsTo(rounds, n) == 0 <==> forall i :: 0 <= i < n ==> Sum(Wins(rounds[i])) == 1
  {
    if n == 0 {
    } else {
      NoViolationIff(rounds, n - 1);
    }
  }

  /** The answers an atomic store gives the hammer's own writers in one round of the phase, in some order. */
  ghost predicate AtomicRound(tag: Tagging, update: bool, n: nat, answers: seq<PutResult>) {
    exists order :: CompletionOrder(order, n) &&
      if update then AnswersOf(tag, Seeded(), IfMatch(SeedTag(tag)), WriterBodies(n), order, answers)
      else AnswersOf(tag, None, IfNoneMatch, WriterBodies(n), order, answers)
  }

  /** The hammer passes every atomic store: whatever the orders of its rounds, each phase counts no violation. */
  lemma AtomicStorePasses(tag: Tagging, update: bool, n: nat, rounds: seq<seq<PutResult>>)
    requires n >= 1 && (update ==> Strong(tag))
    requires forall i :: 0 <= i < |rounds| ==> AtomicRound(tag, update, n, rounds[i])
    ensures PhaseVerdict(rounds) == Some(0)
  {
    forall i | 0 <= i < |rounds| ensures Sum(Wins(rounds[i])) == 1 && !HardError(rounds[i]) {
      assert AtomicRound(tag, update, n, rounds[i]);
      if update {
        var order :| CompletionOrder(order, n) &&
          AnswersOf(tag, Seeded(), IfMatch(SeedTag(tag)), WriterBodies(n), order, rounds[i]);
        UpdateHasOneWinner(tag, n, order, rounds[i]);
      } else {
        var order :| CompletionOrder(order, n) && AnswersOf(tag, None, IfNoneMatch, WriterBodies(n), order, rounds[i]);
        CreateHasOneWinner(tag, WriterBodies(n), order, rounds[i]);
      }
    }
    NoViolationIff(rounds, |rounds|);
  }
}

/** The cache of deploy-pointer reads, against the history of the reads that were really made. */
module DeployTracker {
  import opened Prelude

  /** A fleet's namespaced name. */
  type Key = string

  /** The digest of the app, its bucket and the tracking Secret's version; taken to be injective. */
  type Identity = string

  datatype Entry = Entry(version: string, fetchedAt: int, identity: Identity, failure: bool)

  type Cache = map<Key, Entry>

  /** What pointerVersion returns; `failed` is its error. */
  datatype Answer = Answer(version: string, stale: bool, failed: bool)

  const CAPACITY: nat := 1024

  predicate Expired(e: Entry, now: int, interval: int) { now - e.fetchedAt >= interval }

  /** The entry of this key, if it belongs to this identity. */
  function Cached(cache: Cache, key: Key, identity: Identity): Option<Entry> {
    if key in cache && cache[key].identity == identity then Some(cache[key]) else None
  }

  predicate Hit(cached: Option<Entry>, now: int, interval: int) {
    cached.Some? && !Expired(cached.value, now, interval)
  }

  function Served(e: Entry): Answer { Answer(e.version, e.failure && e.version != "", e.failure) }

  /** What a read leaves in the cache: the pointer, or on failure the last version known to this caller. */
  function NewEntry(cached: Option<Entry>, fetched: Result<string>, identity: Identity, now: int): Entry {
    match fetched
    case Ok(version) => Entry(version, now, identity, false)
    case Err => Entry(if cached.Some? then cached.value.version else "", now, identity, true)
  }

  function Unexpired(cache: Cache, now: int, interval: int): (kept: Cache)
    ensures kept.Keys <= cache.Keys && forall k :: k in kept ==> kept[k] == cache[k]
    ensures forall k :: k in cache ==> (k in kept <==> now - cache[k].fetchedAt < interval)
  {
    map k | k in cache && !Expired(cache[k], now, interval) :: cache[k]
  }

  /** What making room may leave: nothing to do, the unexpired entries, or those less an arbitrary one. */
  predicate MakesRoom(cache: Cache, now: int, interval: int, kept: Cache) {
    if |cache| < CAPACITY then kept == cache
    else
      var unexpired := Unexpired(cache, now, interval);
      if |unexpired| < CAPACITY then kept == unexpired
      else exists k :: k in unexpired && kept == unexpired - {k}
  }

  /** An entry that could still have been served was dropped. */
  predicate DropsLive(cache: Cache, now: int, interval: int, kept: Cache, k: Key) {
    k in cache && now - cache[k].fetchedAt < interval && k !in kept
  }

  /** Making room drops nothing from a cache below its bound, and otherwise of the unexpired entries one at most. */
  lemma EvictsLeast(cache: Cache, now: int, interval: int, kept: Cache)
    requires MakesRoom(cache, now, interval, kept)
    ensures |cache| < 1024 ==> kept == cache
    ensures forall j, k ::
              DropsLive(cache, now, interval, kept, j) && DropsLive(cache, now, interval, kept, k) ==> j == k
    ensures |Unexpired(cache, now, interval)| < 1024 ==> forall k :: !DropsLive(cache, now, interval, kept, k)
    ensures forall k :: k in kept ==> k in cache && kept[k] == cache[k]
    ensures |cache| >= 1024 ==> forall k :: k in kept ==> now - kept[k].fetchedAt < interval
  {
  }

  /** A stored outcome, failures included, is served for exactly an interval, to the identity it was read for alone. */
  lemma ServedForAnInterval(
    cache: Cache, key: Key, cached: Option<Entry>, fetched: Result<string>, identity: Identity, stored: int,
    asker: Identity, now: int, interval: int)
    ensures var e := NewEntry(cached, fetched, identity, stored);
            && (Hit(Cached(cache[key := e], key, asker), now, interval) <==>
                  asker == identity && now - stored < interval)
            && (fetched.Ok? ==> Served(e) == Answer(fetched.value, false, false))
            && (fetched.Err? && cached.None? ==> Served(e) == Answer("", false, true))
            && (fetched.Err? && cached.Some? ==>
                  Served(e) == Answer(cached.value.version, cached.value.version != "", true))
  {
  }

  /** The tracker object: each method is one critical section of its mutex. */
  class Tracker {
    const interval: int
    var cache: Cache

    constructor (interval: int)
      ensures this.interval == (if interval <= 0 then 60 * SECOND else interval) && cache == map[]
    {
      this.interval := if interval <= 0 then 60 * SECOND else interval;
      cache := map[];
    }

    method Lookup(key: Key, identity: Identity, now: int) returns (cached: Option<Entry>, answer: Option<Answer>)
      ensures cached == Cached(cache, key, identity)
      ensures answer == if Hit(cached, now, interval) then Some(Served(cached.value)) else None
    {
      cached, answer := None, None;
      if key in cache && cache[key].identity == identity {
        cached := Some(cache[key]);
      }
      if cached.Some? && now - cached.value.fetchedAt < interval {
        var e := cached.value;
        answer := Some(Answer(e.version, e.failure && e.version != "", e.failure));
      }
    }

    /** The first eviction loop, over the keys in any order. */
    method DropExpired(now: int)
      modifies this`cache
      ensures cache == Unexpired(old(cache), now, interval)
    {
      var left := cache.Keys;
      while left != {}
        invariant left <= cache.Keys <= old(cache).Keys
        invariant forall k :: k in cache ==> cache[k] == old(cache)[k]
        invariant forall k :: k in old(cache) && !Expired(old(cache)[k], now, interval) ==> k in cache
        invariant forall k :: k in cache && k !in left ==> !Expired(cache[k], now, interval)
        decreases |left|
      {
        var k :| k in left;
        left := left - {k};
        if now - cache[k].fetchedAt >= interval {
          cache := cache - {k};
        }
      }
    }

    method MakeRoom(now: int)
      modifies this`cache
      ensures MakesRoom(old(cache), now, interval, cache)
    {
      if |cache| >= CAPACITY {
        DropExpired(now);
        if |cache| >= CAPACITY {
          assert cache.Keys != {};
          var k :| k in cache.Keys;
          cache := cache - {k};
        }
      }
    }

    method Store(
      key: Key, identity: Identity, cached: Option<Entry>, fetched: Result<string>, now: int)
      returns (answer: Answer)
      modifies this`cache
      ensures exists kept :: MakesRoom(old(cache), now, interval, kept)
                          && cache == kept[key := NewEntry(cached, fetched, identity, now)]
      ensures answer == Served(NewEntry(cached, fetched, identity, now))
    {
      var version := if fetched.Ok? then fetched.value else if cached.Some? then cached.value.version else "";
      MakeRoom(now);
      ghost var kept := cache;
      cache := cache[key := Entry(version, now, identity, fetched.Err?)];
      answer := Answer(version, fetched.Err? && version != "", fetched.Err?);
      assert cache == kept[key := NewEntry(cached, fetched, identity, now)];
    }

    /** pointerVersion when no other caller comes between its two critical sections. */
    method PointerVersion(
      key: Key, identity: Identity, asked: int, fetched: Result<string>, stored: int)
      returns (answer: Answer)
      modifies this`cache
      ensures var cached := Cached(old(cache), key, identity);
              if Hit(cached, asked, interval) then answer == Served(cached.value) && cache == old(cache)
              else
                var e := NewEntry(cached, fetched, identity, stored);
                && answer == Served(e)
                && exists kept :: MakesRoom(old(cache), stored, interval, kept) && cache == kept[key := e]
    {
      var cached, hit := Lookup(key, identity, asked);
      if hit.Some? {
        return hit.value;
      }
      answer := Store(key, identity, cached, fetched, stored);
    }

    method Forget(key: Key)
      modifies this`cache
      ensures cache == old(cache) - {key}
    {
      cache := cache - {key};
    }
  }

  // ----- the tracker under any interleaving of its callers -----

  /** A successful read of the pointer: under which identity it was asked for and made, what it found, and when. */
  datatype Read = Read(asked: Identity, used: Identity, version: string, at: int)

  /** A caller between its critical sections. */
  datatype Call = Call(key: Key, identity: Identity, cached: Option<Entry>, fetched: Option<(Result<string>, int)>)

  /** What a caller was told, and when the entry behind it was stored. */
  datatype Reply = Reply(identity: Identity, answer: Answer, storedAt: int, at: int)

  datatype State = State(cache: Cache, calls: set<Call>, log: set<Read>, replies: set<Reply>, now: int)

  datatype Event =
    | Ask(key: Key, identity: Identity)
    | Fetch(c: Call, used: Identity, fetched: Result<string>)
    | Store(c: Call, kept: Cache)
    | Forget(key: Key)
    | Tick(time: int)

  function Asked(s: State, key: Key, identity: Identity, interval: int): State {
    var cached := Cached(s.cache, key, identity);
    if Hit(cached, s.now, interval)
    then s.(replies := s.replies + {Reply(identity, Served(cached.value), cached.value.fetchedAt, s.now)})
    else s.(calls := s.calls + {Call(key, identity, cached, None)})
  }

  /** The read itself; an empty pointer counts as a failure. */
  function Fetched(s: State, c: Call, used: Identity, fetched: Result<string>): State {
    s.(calls := s.calls - {c} + {c.(fetched := Some((fetched, s.now)))},
       log := if fetched.Ok? then s.log + {Read(c.identity, used, fetched.value, s.now)} else s.log)
  }

  function Kept(s: State, c: Call, kept: Cache): State
    requires c.fetched.Some?
  {
    var e := NewEntry(c.cached, c.fetched.value.0, c.identity, s.now);
    s.(cache := kept[c.key := e], calls := s.calls - {c},
      replies := s.replies + {Reply(c.identity, Served(e), s.now, s.now)})
  }

  predicate Next(interval: int, s: State, e: Event, t: State) {
    match e
    case Ask(key, identity) => t == Asked(s, key, identity, interval)
    case Fetch(c, used, fetched) =>
      c in s.calls && c.fetched.None? && (fetched.Ok? ==> fetched.value != "") && t == Fetched(s, c, used, fetched)
    case Store(c, kept) =>
      c in s.calls && c.fetched.Some? && MakesRoom(s.cache, s.now, interval, kept) && t == Kept(s, c, kept)
    case Forget(key) => t == s.(cache := s.cache - {key})
    case Tick(time) => s.now <= time && t == s.(now := time)
  }

  predicate Init(s: State) { s.cache == map[] && s.calls == {} && s.log == {} && s.replies == {} }

  predicate Run(interval: int, run: seq<State>, events: seq<Event>) {
    && |run| == |events| + 1 && Init(run[0])
    && forall i :: 0 <= i < |events| ==> Next(interval, run[i], events[i], run[i + 1])
  }

  /** The version was read under this identity, at most `delay` before the entry was stored. */
  ghost predicate ReadFor(log: set<Read>, identity: Identity, version: string, storedAt: int, delay: int) {
    exists r :: r in log && r.asked == identity && r.version == version && r.at <= storedAt <= r.at + delay
  }

  /** The version was once read under this identity. */
  ghost predicate OnceRead(log: set<Read>, identity: Identity, version: string) {
    exists r :: r in log && r.asked == identity && r.version == version
  }

  ghost predicate EntryTrue(log: set<Read>, e: Entry, now: int, delay: int) {
    && e.fetchedAt <= now
    && (!e.failure ==> ReadFor(log, e.identity, e.version, e.fetchedAt, delay))
    && (e.version != "" ==> OnceRead(log, e.identity, e.version))
  }

  ghost predicate CallTrue(log: set<Read>, c: Call, now: int) {
    && (c.cached.Some? ==>
          && c.cached.value.identity == c.identity
          && (c.cached.value.version != "" ==> OnceRead(log, c.identity, c.cached.value.version)))
    && (c.fetched.Some? ==>
          && c.fetched.value.1 <= now
          && (c.fetched.value.0.Ok? ==>
                exists r :: r in log && r.asked == c.identity && r.version == c.fetched.value.0.value
                    && r.at == c.fetched.value.1))
  }

  /**
    What a reply promises: a fresh one was read under the same identity, stored within the interval; a failed
    one was once read under it.
   */
  ghost predicate ReplyTrue(log: set<Read>, r: Reply, interval: int, delay: int) {
    && (!r.answer.failed ==>
          && ReadFor(log, r.identity, r.answer.version, r.storedAt, delay)
          && r.storedAt <= r.at && (r.at == r.storedAt || r.at - r.storedAt < interval))
    && (r.answer.version != "" ==> OnceRead(log, r.identity, r.answer.version))
    && (r.answer.stale <==> r.answer.failed && r.answer.version != "")
  }

  ghost predicate Inv(s: State, interval: int, delay: int) {
    && |s.cache| <= CAPACITY
    && (forall k :: k in s.cache ==> EntryTrue(s.log, s.cache[k], s.now, delay))
    && (forall c :: c in s.calls ==> CallTrue(s.log, c, s.now))
    && (forall r :: r in s.replies ==> ReplyTrue(s.log, r, interval, delay))
  }

  /** The hypothesis on time: a caller stores what it read at most `delay` after reading it. */
  predicate Prompt(s: State, e: Event, delay: int) {
    e.Store? && e.c.fetched.Some? ==> s.now - e.c.fetched.value.1 <= delay
  }

  lemma AskKeeps(interval: int, delay: int, s: State, e: Event, t: State)
    requires Inv(s, interval, delay) && e.Ask? && Next(interval, s, e, t)
    ensures Inv(t, interval, delay)
  {
  }

  lemma FetchKeeps(interval: int, delay: int, s: State, e: Event, t: State)
    requires Inv(s, interval, delay) && e.Fetch? && Next(interval, s, e, t)
    ensures Inv(t, interval, delay)
  {
  }

  lemma RoomIsMade(cache: Cache, now: int, interval: int, kept: Cache)
    requires |cache| <= CAPACITY && MakesRoom(cache, now, interval, kept)
    ensures |kept| < CAPACITY && kept.Keys <= cache.Keys && forall k :: k in kept ==> kept[k] == cache[k]
  {
    var unexpired := Unexpired(cache, now, interval);
    if |cache| >= CAPACITY {
      Fewer(unexpired.Keys, cache.Keys);
      if |unexpired| >= CAPACITY {
        var k :| k in unexpired && kept == unexpired - {k};
        assert kept.Keys == unexpired.Keys - {k};
      }
    }
  }

  lemma Fewer<T>(small: set<T>, big: set<T>)
    requires small <= big
    ensures |small| <= |big|
  {
    assert big == small + (big - small);
  }

  lemma NewEntryTrue(log: set<Read>, c: Call, now: int, delay: int)
    requires CallTrue(log, c, now) && c.fetched.Some? && now - c.fetched.value.1 <= delay
    ensures EntryTrue(log, NewEntry(c.cached, c.fetched.value.0, c.identity, now), now, delay)
  {
  }

  lemma StoreKeeps(interval: int, delay: int, s: State, e: Event, t: State)
    requires Inv(s, interval, delay) && e.Store? && Next(interval, s, e, t) && Prompt(s, e, delay)
    ensures Inv(t, interval, delay)
  {
    RoomIsMade(s.cache, s.now, interval, e.kept);
    NewEntryTrue(s.log, e.c, s.now, delay);
    var stored := NewEntry(e.c.cached, e.c.fetched.value.0, e.c.identity, s.now);
    assert t.cache.Keys == e.kept.Keys + {e.c.key};
    assert ReplyTrue(s.log, Reply(e.c.identity, Served(stored), s.now, s.now), interval, delay);
  }

  lemma ForgetKeeps(interval: int, delay: int, s: State, e: Event, t: State)
    requires Inv(s, interval, delay) && e.Forget? && Next(interval, s, e, t)
    ensures Inv(t, interval, delay)
  {
  }

  lemma NextKeeps(interval: int, delay: int, s: State, e: Event, t: State)
    requires Inv(s, interval, delay) && Next(interval, s, e, t) && Prompt(s, e, delay)
    ensures Inv(t, interval, delay)
  {
    match e
    case Ask(_, _) => AskKeeps(interval, delay, s, e, t);
    case Fetch(_, _, _) => FetchKeeps(interval, delay, s, e, t);
    case Store(_, _) => StoreKeeps(interval, delay, s, e, t);
    case Forget(_) => ForgetKeeps(interval, delay, s, e, t);
    case Tick(_) =>
  }

  lemma {:induction false} RunKeeps(interval: int, delay: int, run: seq<State>, events: seq<Event>, i: nat)
    requires Run(interval, run, events) && i < |run|
    requires forall k :: 0 <= k < |events| ==> Prompt(run[k], events[k], delay)
    ensures Inv(run[i], interval, delay)
  {
    if i == 0 {
    } else {
      RunKeeps(interval, delay, run, events, i - 1);
      NextKeeps(interval, delay, run[i - 1], events[i - 1], run[i]);
    }
  }

  // ----- what the tracker promises -----

  /** In every run some delay bounds the time from a read to its storing. */
  lemma {:induction false} SomeDelay(run: seq<State>, events: seq<Event>, k: nat) returns (delay: int)
    requires |run| == |events| + 1 && k <= |events|
    ensures forall i :: 0 <= i < k ==> Prompt(run[i], events[i], delay)
  {
    delay := 0;
    if k == 0 {
    } else {
      delay := SomeDelay(run, events, k - 1);
      var e := events[k - 1];
      if e.Store? && e.c.fetched.Some? && run[k - 1].now - e.c.fetched.value.1 > delay {
        delay := run[k - 1].now - e.c.fetched.value.1;
      }
    }
  }

  predicate PromptRun(interval: int, delay: int, run: seq<State>, events: seq<Event>) {
    Run(interval, run, events) && forall k :: 0 <= k < |events| ==> Prompt(run[k], events[k], delay)
  }

  /** Every run is one for some delay. */
  lemma EveryRunIsPrompt(interval: int, run: seq<State>, events: seq<Event>) returns (delay: int)
    requires Run(interval, run, events)
    ensures PromptRun(interval, delay, run, events)
  {
    delay := SomeDelay(run, events, |events|);
  }

  /**
    For any callers, failures, identity changes, evictions and Forgets: a version returned without error was read for
    the caller's identity, stored at most the delay after that read, and served less than an interval after
    being stored; a version returned with an error was once read for that same identity; and the
    cache never outgrows its bound.
   */
  lemma CacheHistory(interval: int, delay: int, run: seq<State>, events: seq<Event>, i: nat, r: Reply)
    requires PromptRun(interval, delay, run, events) && i < |run| && r in run[i].replies
    ensures |run[i].cache| <= CAPACITY
    ensures r.answer.version != "" ==> OnceRead(run[i].log, r.identity, r.answer.version)
    ensures !r.answer.failed ==>
              && ReadFor(run[i].log, r.identity, r.answer.version, r.storedAt, delay)
              && r.storedAt <= r.at && (r.at == r.storedAt || r.at - r.storedAt < interval)
    ensures r.answer.stale <==> r.answer.failed && r.answer.version != ""
  {
    RunKeeps(interval, delay, run, events, i);
    assert ReplyTrue(run[i].log, r, interval, delay);
  }

  lemma CacheBounded(interval: int, run: seq<State>, events: seq<Event>, i: nat)
    requires Run(interval, run, events) && i < |run|
    ensures |run[i].cache| <= 1024
  {
    var delay := EveryRunIsPrompt(interval, run, events);
    RunKeeps(interval, delay, run, events, i);
  }

  /** Its version was read for the caller's identity less than this long before the reply. */
  ghost predicate Younger(log: set<Read>, r: Reply, bound: int) {
    exists x :: x in log && x.asked == r.identity && x.version == r.answer.version && r.at - x.at < bound
  }

  ghost predicate AlwaysYounger(interval: int, delay: int, bound: int) {
    forall run: seq<State>, events: seq<Event>, r: Reply ::
      PromptRun(interval, delay, run, events) && r in run[|events|].replies && !r.answer.failed ==>
        Younger(run[|events|].log, r, bound)
  }

  lemma Extend(interval: int, delay: int, run: seq<State>, events: seq<Event>, e: Event, t: State)
    returns (run': seq<State>, events': seq<Event>)
    requires PromptRun(interval, delay, run, events)
    requires Next(interval, run[|events|], e, t) && Prompt(run[|events|], e, delay)
    ensures run' == run + [t] && events' == events + [e] && PromptRun(interval, delay, run', events')
    ensures run'[|events'|] == t
  {
    run', events' := run + [t], events + [e];
    forall i | 0 <= i < |events'|
      ensures Next(interval, run'[i], events'[i], run'[i + 1]) && Prompt(run'[i], events'[i], delay)
    {
      if i < |events| { assert run'[i + 1] == run[i + 1]; }
    }
  }

  /** The state after one caller has read at time 0 and stored at time `delay`. */
  function StoredOnce(asked: Identity, used: Identity, delay: int): State {
    var e := Entry("v", delay, asked, false);
    State(map["app" := e], {}, {Read(asked, used, "v", 0)}, {Reply(asked, Served(e), delay, delay)}, delay)
  }

  lemma StoresOnce(
    interval: int, asked: Identity, used: Identity, delay: nat)
    returns (run: seq<State>, events: seq<Event>)
    ensures PromptRun(interval, delay, run, events) && run[|events|] == StoredOnce(asked, used, delay)
  {
    var s0 := State(map[], {}, {}, {}, 0);
    var call := Call("app", asked, None, None);
    var done := call.(fetched := Some((Ok("v"), 0)));
    var s1 := s0.(calls := {call});
    var s2 := s1.(calls := {done}, log := {Read(asked, used, "v", 0)});
    run, events := [s0], [];
    run, events := Extend(interval, delay, run, events, Ask("app", asked), s1);
    run, events := Extend(interval, delay, run, events, Fetch(call, used, Ok("v")), s2);
    run, events := Extend(interval, delay, run, events, Tick(delay), s2.(now := delay));
    run, events := Extend(interval, delay, run, events, Store(done, map[]), StoredOnce(asked, used, delay));
  }

  /** A read stored as late as it may be, and served as late as it may be. */
  lemma LatestReply(interval: int, delay: nat) returns (run: seq<State>, events: seq<Event>, r: Reply)
    requires interval > 0
    ensures PromptRun(interval, delay, run, events)
    ensures r in run[|events|].replies && !r.answer.failed && !Younger(run[|events|].log, r, interval + delay - 1)
  {
    var stored, time := StoredOnce("id", "id", delay), delay + interval - 1;
    run, events := StoresOnce(interval, "id", "id", delay);
    run, events := Extend(interval, delay, run, events, Tick(time), stored.(now := time));
    r := Reply("id", Answer("v", false, false), delay, time);
    var last := stored.(now := time, replies := stored.replies + {r});
    run, events := Extend(interval, delay, run, events, Ask("app", "id"), last);
  }

  /**
    The age of the read itself. An entry is dated when it is stored, not when it was read; so a version returned without
    error was read less than any bound ago, in every run, if and only if the bound is at least an interval
    and the delay together.
   */
  lemma AgeIff(interval: int, delay: nat, bound: int)
    requires interval > 0
    ensures AlwaysYounger(interval, delay, bound) <==> bound >= interval + delay
  {
    if bound >= interval + delay {
      forall run: seq<State>, events: seq<Event>, r: Reply |
        PromptRun(interval, delay, run, events) && r in run[|events|].replies && !r.answer.failed
        ensures Younger(run[|events|].log, r, bound)
      {
        CacheHistory(interval, delay, run, events, |events|, r);
      }
    } else {
      var run, events, r := LatestReply(interval, delay);
      assert !Younger(run[|events|].log, r, bound);
    }
  }

  /**
    The tracking Secret did not change between the read that named the identity and the one that gave the
    credentials.
   */
  predicate SteadySecret(e: Event) { e.Fetch? ==> e.used == e.c.identity }

  /** If it never does, every read was made under the identity it is attributed to. */
  lemma {:induction false} SteadyReads(interval: int, run: seq<State>, events: seq<Event>, i: nat)
    requires Run(interval, run, events) && i < |run| && forall k :: 0 <= k < |events| ==> SteadySecret(events[k])
    ensures forall x :: x in run[i].log ==> x.used == x.asked
  {
    if i == 0 {
    } else {
      SteadyReads(interval, run, events, i - 1);
      assert SteadySecret(events[i - 1]) && Next(interval, run[i - 1], events[i - 1], run[i]);
    }
  }

  /** The version was really read under this identity. */
  ghost predicate ReadUnder(log: set<Read>, identity: Identity, version: string) {
    exists x :: x in log && x.used == identity && x.version == version
  }

  /** So no caller is told, with or without an error, a version that was not read under its own identity. */
  lemma SteadyReplies(interval: int, run: seq<State>, events: seq<Event>, i: nat, r: Reply)
    requires Run(interval, run, events) && i < |run| && forall k :: 0 <= k < |events| ==> SteadySecret(events[k])
    requires r in run[i].replies && (r.answer.failed ==> r.answer.version != "")
    ensures ReadUnder(run[i].log, r.identity, r.answer.version)
  {
    var delay := EveryRunIsPrompt(interval, run, events);
    CacheHistory(interval, delay, run, events, i, r);
    SteadyReads(interval, run, events, i);
    var x :| x in run[i].log && x.asked == r.identity && x.version == r.answer.version;
    assert x.used == r.identity;
  }

  /** If it does, a version can be returned without error that was never read under the caller's identity. */
  lemma RotationMisattributes(interval: int) returns (run: seq<State>, events: seq<Event>, r: Reply)
    ensures Run(interval, run, events) && r in run[|events|].replies && !r.answer.failed
    ensures !ReadUnder(run[|events|].log, r.identity, r.answer.version)
  {
    run, events := StoresOnce(interval, "old", "new", 0);
    r := Reply("old", Answer("v", false, false), 0, 0);
  }
}

/** The in-process fixed-window rate limiter (src/coreline_auth/rate_limit.py). */
module RateLimiter {
  import opened Prelude

  /** Readings of the monotonic clock, in seconds. */
  type Time = real

  datatype Bucket = Bucket(count: int, resetAt: Time)

  type Buckets = map<string, Bucket>

  datatype Decision = Allowed | Denied(retryAfter: int)

  datatype Failure = ValueError

  /** What `cleanup_expired` keeps. */
  function Live(b: Buckets, now: Time): Buckets {
    map k | k in b && now < b[k].resetAt :: b[k]
  }

  lemma PurgeIsLive(before: Buckets, after: Buckets, expired: set<string>, now: Time)
    requires forall k :: k in expired <==> k in before && now >= before[k].resetAt
    requires after.Keys == before.Keys - expired && forall k :: k in after ==> after[k] == before[k]
    ensures after == Live(before, now) && |after| == |before| - |expired|
  {
    assert |before.Keys - expired| == |before.Keys| - |expired|;
  }

  /** A key with the smallest reset time. */
  predicate Oldest(b: Buckets, k: string) {
    k in b && forall other :: other in b ==> b[k].resetAt <= b[other].resetAt
  }

  function Current(b: Buckets, key: string, window: int, now: Time): Bucket {
    var found := if key in b then b[key] else Bucket(0, now + window as real);
    if now >= found.resetAt then Bucket(0, now + window as real) else found
  }

  function RetryAfter(resetAt: Time, now: Time): int {
    var whole := Truncate(resetAt - now);
    if whole < 1 then 1 else whole
  }

  /** `int(x)`: truncation toward zero. */
  function Truncate(x: real): int {
    if x >= 0.0 then x.Floor else -((-x).Floor)
  }

  /** The decision on a purged dictionary with room for the key. */
  function Admit(b: Buckets, key: string, limit: int, window: int, now: Time): (Buckets, Decision) {
    var c := Current(b, key, window, now);
    if c.count >= limit then (b, Denied(RetryAfter(c.resetAt, now)))
    else (b[key := Bucket(c.count + 1, c.resetAt)], Allowed)
  }

  predicate NeedsRoom(b: Buckets, key: string, maxBuckets: int) {
    key !in b && |b| >= maxBuckets
  }

  /** One call, with the key that is evicted when room is needed. */
  datatype Request = Request(key: string, limit: int, window: int, now: Time, victim: string)

  predicate Possible(b: Buckets, maxBuckets: int, c: Request) {
    var live := Live(b, c.now);
    NeedsRoom(live, c.key, maxBuckets) ==> Oldest(live, c.victim)
  }

  function Purged(b: Buckets, maxBuckets: int, c: Request): Buckets {
    var live := Live(b, c.now);
    if NeedsRoom(live, c.key, maxBuckets) then live - {c.victim} else live
  }

  function Step(b: Buckets, maxBuckets: int, c: Request): (Buckets, Decision) {
    Admit(Purged(b, maxBuckets, c), c.key, c.limit, c.window, c.now)
  }

  // ----- The order of a dictionary -----

  predicate Distinct(order: seq<string>) {
    forall i, j :: 0 <= i < j < |order| ==> order[i] != order[j]
  }

  /** The keys in the order in which they were inserted. */
  ghost predicate Ordered(b: Buckets, order: seq<string>) {
    Distinct(order) && forall k :: k in order <==> k in b
  }

  function LiveOrder(b: Buckets, order: seq<string>, now: Time): seq<string> {
    if order == [] then []
    else
      var init, last := order[..|order| - 1], order[|order| - 1];
      LiveOrder(b, init, now) + if last in b && now < b[last].resetAt then [last] else []
  }

  function Without(order: seq<string>, key: string): seq<string> {
    if order == [] then []
    else
      var init, last := order[..|order| - 1], order[|order| - 1];
      Without(init, key) + if last == key then [] else [last]
  }

  lemma DistinctInit(order: seq<string>)
    requires order != [] && Distinct(order)
    ensures var init, last := order[..|order| - 1], order[|order| - 1];
      Distinct(init) && last !in init && forall k :: k in order <==> k in init || k == last
  {
    assert order == order[..|order| - 1] + [order[|order| - 1]];
  }

  lemma DistinctAppend(order: seq<string>, key: string)
    requires Distinct(order) && key !in order
    ensures Distinct(order + [key])
  {
  }

  lemma {:induction false} LiveOrderIsOrdered(b: Buckets, order: seq<string>, now: Time)
    requires Distinct(order)
    ensures Distinct(LiveOrder(b, order, now))
    ensures forall k :: k in LiveOrder(b, order, now) <==> k in order && k in b && now < b[k].resetAt
  {
    hide Distinct;
    if order == [] {
      DistinctEmpty();
    } else {
      var init, last := order[..|order| - 1], order[|order| - 1];
      DistinctInit(order);
      LiveOrderIsOrdered(b, init, now);
      var live := LiveOrder(b, init, now);
      DistinctAppend(live, last);
      assert live + [] == live;
    }
  }

  lemma {:induction false} WithoutIsOrdered(order: seq<string>, key: string)
    requires Distinct(order)
    ensures Distinct(Without(order, key))
    ensures forall k :: k in Without(order, key) <==> k in order && k != key
  {
    hide Distinct;
    if order == [] {
      DistinctEmpty();
    } else {
      var init, last := order[..|order| - 1], order[|order| - 1];
      DistinctInit(order);
      WithoutIsOrdered(init, key);
      var rest := Without(init, key);
      DistinctAppend(rest, last);
      assert rest + [] == rest;
    }
  }

  lemma LiveIsOrdered(b: Buckets, order: seq<string>, now: Time)
    requires Ordered(b, order)
    ensures Ordered(Live(b, now), LiveOrder(b, order, now))
  {
    hide Distinct, LiveOrder;
    LiveOrderIsOrdered(b, order, now);
  }

  lemma DistinctEmpty()
    ensures Distinct([])
  {
  }

  /** What `min` returns: the first key, in insertion order, with the smallest reset time. */
  predicate FirstOldest(b: Buckets, order: seq<string>, k: string)
    requires forall x :: x in order ==> x in b
  {
    exists i :: 0 <= i < |order| && order[i] == k
      && (forall j :: 0 <= j < i ==> b[k].resetAt < b[order[j]].resetAt)
      && (forall j :: i <= j < |order| ==> b[k].resetAt <= b[order[j]].resetAt)
  }

  lemma FirstOldestIsOldest(b: Buckets, order: seq<string>, k: string)
    requires Ordered(b, order) && FirstOldest(b, order, k)
    ensures Oldest(b, k)
  {
  }

  /** The order after a call: expired keys and the evicted one go, a new key comes last. */
  function OrderStep(b: Buckets, order: seq<string>, maxBuckets: int, c: Request): seq<string> {
    var live := LiveOrder(b, order, c.now);
    var kept := if NeedsRoom(Live(b, c.now), c.key, maxBuckets) then Without(live, c.victim) else live;
    if c.key in kept || Step(b, maxBuckets, c).1.Denied? then kept else kept + [c.key]
  }

  /** The key evicted, if one is, is the one `min` returns. */
  ghost predicate Evicts(b: Buckets, order: seq<string>, maxBuckets: int, c: Request) {
    var live := LiveOrder(b, order, c.now);
    NeedsRoom(Live(b, c.now), c.key, maxBuckets) ==>
      Ordered(Live(b, c.now), live) && FirstOldest(Live(b, c.now), live, c.victim)
  }

  /** The call leaves these windows in this order and gives this decision. */
  ghost predicate Serves(b: Buckets, order: seq<string>, maxBuckets: int, c: Request, b': Buckets, order': seq<string>,
                         d: Decision)
  {
    && Possible(b, maxBuckets, c) && Evicts(b, order, maxBuckets, c)
    && Step(b, maxBuckets, c) == (b', d) && order' == OrderStep(b, order, maxBuckets, c)
  }

  /** The order keeps listing the keys once each. */
  lemma StepIsOrdered(b: Buckets, order: seq<string>, maxBuckets: int, c: Request)
    requires Ordered(b, order) && Evicts(b, order, maxBuckets, c)
    ensures Possible(b, maxBuckets, c)
    ensures Ordered(Step(b, maxBuckets, c).0, OrderStep(b, order, maxBuckets, c))
  {
    hide Distinct, FirstOldest, Oldest, LiveOrder, Without, Live;
    var live, listed := Live(b, c.now), LiveOrder(b, order, c.now);
    LiveIsOrdered(b, order, c.now);
    if NeedsRoom(live, c.key, maxBuckets) {
      FirstOldestIsOldest(live, listed, c.victim);
      WithoutIsOrdered(listed, c.victim);
      if c.key !in Without(listed, c.victim) {
        DistinctAppend(Without(listed, c.victim), c.key);
      }
    } else if c.key !in listed {
      DistinctAppend(listed, c.key);
    }
  }

  class FixedWindowRateLimiter {
    var buckets: Buckets
    var order: seq<string>
    const maxBuckets: int

    ghost predicate Valid()
      reads this
    {
      Ordered(buckets, order)
    }

    constructor (maxBuckets: int)
      ensures Valid() && this.maxBuckets == maxBuckets && buckets == map[] && order == []
    {
      this.maxBuckets := maxBuckets;
      buckets, order := map[], [];
    }

    method CleanupExpired(now: Time) returns (removed: nat)
      requires Valid()
      modifies this
      ensures Valid() && buckets == Live(old(buckets), now) && order == LiveOrder(old(buckets), old(order), now)
      ensures removed == |old(buckets)| - |buckets|
    {
      hide Ordered, LiveOrder, Live;
      LiveIsOrdered(buckets, order, now);
      var before := buckets;
      var expired := set k | k in buckets && now >= buckets[k].resetAt;
      var todo := expired;
      while todo != {}
        invariant todo <= expired <= before.Keys
        invariant buckets == map k | k in before && k !in expired - todo :: before[k]
        invariant order == old(order)
      {
        var k :| k in todo;
        buckets := buckets - {k};
        todo := todo - {k};
      }
      PurgeIsLive(before, buckets, expired, now);
      order := LiveOrder(before, order, now);
      removed := |expired|;
    }

    /** `min` over the dictionary; `None` where it raises. */
    method OldestKey() returns (oldest: Option<string>)
      requires Valid()
      ensures oldest == None <==> buckets == map[]
      ensures oldest.Some? ==> FirstOldest(buckets, order, oldest.value)
    {
      if order == [] {
        assert buckets.Keys == {};
        return None;
      }
      assert order[0] in buckets;
      var at := 0;
      for i := 1 to |order|
        invariant 0 <= at < i
        invariant forall j :: 0 <= j < at ==> buckets[order[at]].resetAt < buckets[order[j]].resetAt
        invariant forall j :: at <= j < i ==> buckets[order[at]].resetAt <= buckets[order[j]].resetAt
      {
        if buckets[order[i]].resetAt < buckets[order[at]].resetAt {
          at := i;
        }
      }
      oldest := Some(order[at]);
    }

    /** `check` at clock reading `now`. Making room in an empty dictionary raises, which only
        happens when `maxBuckets` is not positive. */
    method Check(key: string, limit: int, window: int, now: Time) returns (r: Result<Decision, Failure>)
      requires Valid()
      modifies this
      ensures Valid()
      ensures r.Err? <==> maxBuckets <= 0 && Live(old(buckets), now) == map[]
      ensures r.Err? ==> buckets == map[]
      ensures r.Ok? ==> exists victim ::
        Serves(old(buckets), old(order), maxBuckets, Request(key, limit, window, now, victim), buckets, order, r.value)
    {
      hide LiveOrder, Without, Distinct, FirstOldest, Oldest, Live, Truncate;
      var _ := CleanupExpired(now);
      ghost var victim := key;
      if key !in buckets && |buckets| >= maxBuckets {
        var oldest := OldestKey();
        if oldest == None {
          return Err(ValueError);
        }
        victim := oldest.value;
        buckets, order := buckets - {oldest.value}, Without(order, oldest.value);
      }
      ghost var c := Request(key, limit, window, now, victim);
      assert Evicts(old(buckets), old(order), maxBuckets, c) && buckets == Purged(old(buckets), maxBuckets, c);
      StepIsOrdered(old(buckets), old(order), maxBuckets, c);
      var bucket := if key in buckets then buckets[key] else Bucket(0, now + window as real);
      if now >= bucket.resetAt {
        bucket := Bucket(0, now + window as real);
      }
      if bucket.count >= limit {
        var whole := Truncate(bucket.resetAt - now);
        r := Ok(Denied(if whole < 1 then 1 else whole));
      } else {
        order := if key in order then order else order + [key];
        buckets := buckets[key := Bucket(bucket.count + 1, bucket.resetAt)];
        r := Ok(Allowed);
      }
      assert Step(old(buckets), maxBuckets, c) == (buckets, r.value);
      assert order == OrderStep(old(buckets), old(order), maxBuckets, c);
      assert Serves(old(buckets), old(order), maxBuckets, c, buckets, order, r.value);
    }
  }

  // ----- One check -----

  /** The key's window is still running. */
  predicate Running(b: Buckets, key: string, now: Time) {
    key in b && now < b[key].resetAt
  }

  /** The check evicts `k` to make room for a key without a running window. */
  predicate MakesRoom(b: Buckets, maxBuckets: int, c: Request, k: string) {
    && k == c.victim && !Running(b, c.key, c.now)
    && |set x | x in b && c.now < b[x].resetAt| >= maxBuckets
  }

  /** A check is denied exactly when the key's running window, or a new one, has no room, and then
      says for how many whole seconds, at least one. Otherwise it is counted in that window. Of
      the other keys exactly the running windows stay as they are, but for the one evicted. */
  lemma CheckMeaning(b: Buckets, maxBuckets: int, c: Request)
    requires Possible(b, maxBuckets, c)
    ensures var (b', d) := Step(b, maxBuckets, c);
      var used := if Running(b, c.key, c.now) then b[c.key].count else 0;
      var end := if Running(b, c.key, c.now) then b[c.key].resetAt else c.now + c.window as real;
      && (d.Denied? <==> c.limit <= used)
      && (d.Denied? ==>
            && 1 <= d.retryAfter && end - c.now < (d.retryAfter + 1) as real
            && (d.retryAfter == 1 || d.retryAfter as real <= end - c.now))
      && (d.Allowed? ==> c.key in b' && b'[c.key] == Bucket(used + 1, end))
      && (forall k :: k != c.key ==>
            && (k in b' <==> Running(b, k, c.now) && !MakesRoom(b, maxBuckets, c, k))
            && (k in b' ==> b'[k] == b[k]))
  {
    var live := Live(b, c.now);
    assert live.Keys == set x | x in b && c.now < b[x].resetAt;
    if c.key in live {
      assert c.key in Purged(b, maxBuckets, c);
    }
  }

  // ----- Runs -----

  /** The dictionary after a run of checks. */
  function Run(maxBuckets: int, cs: seq<Request>): Buckets {
    if cs == [] then map[] else Step(Run(maxBuckets, cs[..|cs| - 1]), maxBuckets, cs[|cs| - 1]).0
  }

  /** The answer to the last check of a run. */
  function Verdict(maxBuckets: int, cs: seq<Request>): Decision
    requires cs != []
  {
    Step(Run(maxBuckets, cs[..|cs| - 1]), maxBuckets, cs[|cs| - 1]).1
  }

  /** The clock never goes back. */
  predicate Clocked(cs: seq<Request>) {
    |cs| >= 2 ==> Clocked(cs[..|cs| - 1]) && cs[|cs| - 2].now <= cs[|cs| - 1].now
  }

  /** A run that evicts as the class does, whatever the order of keys with equal reset times. */
  predicate Feasible(maxBuckets: int, cs: seq<Request>) {
    cs != [] ==>
      var init := cs[..|cs| - 1];
      Feasible(maxBuckets, init) && Possible(Run(maxBuckets, init), maxBuckets, cs[|cs| - 1])
  }

  /** `key` is always checked with this limit and window, and is never evicted. */
  predicate Steady(maxBuckets: int, cs: seq<Request>, key: string, limit: int, window: int) {
    cs != [] ==>
      var init := cs[..|cs| - 1];
      var c := cs[|cs| - 1];
      && Steady(maxBuckets, init, key, limit, window)
      && (c.key == key ==> c.limit == limit && c.window == window)
      && (NeedsRoom(Live(Run(maxBuckets, init), c.now), c.key, maxBuckets) ==> c.victim != key)
  }

  /** The dictionary never outgrows a positive capacity. */
  lemma {:induction false} CapacityHolds(maxBuckets: int, cs: seq<Request>)
    requires maxBuckets >= 1 && Feasible(maxBuckets, cs)
    ensures |Run(maxBuckets, cs)| <= maxBuckets
  {
    if cs != [] {
      CapacityHolds(maxBuckets, cs[..|cs| - 1]);
      StepKeepsCapacity(Run(maxBuckets, cs[..|cs| - 1]), maxBuckets, cs[|cs| - 1]);
    }
  }

  lemma StepKeepsCapacity(b: Buckets, maxBuckets: int, c: Request)
    requires |b| <= maxBuckets && Possible(b, maxBuckets, c)
    ensures |Step(b, maxBuckets, c).0| <= maxBuckets || maxBuckets < 1
  {
    var live := Live(b, c.now);
    SubsetCardinality(live.Keys, b.Keys);
    if NeedsRoom(live, c.key, maxBuckets) {
      if maxBuckets >= 1 {
        assert Oldest(live, c.victim);
        assert (live - {c.victim}).Keys == live.Keys - {c.victim};
      }
    }
    var p := Purged(b, maxBuckets, c);
    var after := Step(b, maxBuckets, c).0;
    assert after == p || after.Keys == p.Keys + {c.key};
  }

  // ----- The purge-free specification of one key -----

  /** What one key's window looks like when nothing is ever purged. */
  function KeyState(cs: seq<Request>, key: string, limit: int, window: int): Option<Bucket> {
    if cs == [] then None
    else
      var prev := KeyState(cs[..|cs| - 1], key, limit, window);
      var c := cs[|cs| - 1];
      if c.key == key then KeyStep(prev, limit, window, c.now).0 else prev
  }

  function KeyStep(st: Option<Bucket>, limit: int, window: int, now: Time): (Option<Bucket>, bool) {
    var b := if st.Some? && now < st.value.resetAt then st.value else Bucket(0, now + window as real);
    if b.count >= limit then (st, false) else (Some(Bucket(b.count + 1, b.resetAt)), true)
  }

  function Unexpired(st: Option<Bucket>, now: Time): Option<Bucket> {
    if st.Some? && now < st.value.resetAt then st else None
  }

  function Lookup(b: Buckets, key: string): Option<Bucket> {
    if key in b then Some(b[key]) else None
  }

  /** Making room for another key leaves this key's live window alone. */
  lemma PurgedLookup(b: Buckets, maxBuckets: int, c: Request, key: string)
    requires NeedsRoom(Live(b, c.now), c.key, maxBuckets) ==> c.victim != key
    ensures Lookup(Purged(b, maxBuckets, c), key) == Unexpired(Lookup(b, key), c.now)
  {
  }

  /** The dictionary and the purge-free state of the key agree up to expired entries. */
  lemma {:induction false} RunAgrees(maxBuckets: int, cs: seq<Request>, key: string, limit: int, window: int, now: Time)
    requires Steady(maxBuckets, cs, key, limit, window) && Clocked(cs)
    requires cs != [] ==> cs[|cs| - 1].now <= now
    ensures Unexpired(Lookup(Run(maxBuckets, cs), key), now) == Unexpired(KeyState(cs, key, limit, window), now)
  {
    if cs != [] {
      var init := cs[..|cs| - 1];
      var c := cs[|cs| - 1];
      var b := Run(maxBuckets, init);
      RunAgrees(maxBuckets, init, key, limit, window, c.now);
      PurgedLookup(b, maxBuckets, c, key);
      StepAgrees(b, maxBuckets, c, key, KeyState(init, key, limit, window), limit, window);
    }
  }

  /** The entry a check of the key leaves, by its purge-free state. */
  lemma AdmitAgrees(b: Buckets, key: string, limit: int, window: int, now: Time, st: Option<Bucket>)
    requires Lookup(b, key) == Unexpired(st, now)
    ensures Admit(b, key, limit, window, now).1.Allowed? <==> KeyStep(st, limit, window, now).1
    ensures Lookup(Admit(b, key, limit, window, now).0, key)
      == if KeyStep(st, limit, window, now).1 then KeyStep(st, limit, window, now).0 else Unexpired(st, now)
    ensures !KeyStep(st, limit, window, now).1 ==> KeyStep(st, limit, window, now).0 == st
  {
  }

  lemma AdmitLeavesOthers(b: Buckets, key: string, other: string, limit: int, window: int, now: Time)
    requires other != key
    ensures Lookup(Admit(b, key, limit, window, now).0, other) == Lookup(b, other)
  {
  }

  lemma UnexpiredLater(st: Option<Bucket>, then_: Time)
    ensures forall now :: then_ <= now ==> Unexpired(Unexpired(st, then_), now) == Unexpired(st, now)
  {
  }

  /** One check moves the key's entry and its purge-free state alike, and decides alike. */
  lemma StepAgrees(b: Buckets, maxBuckets: int, c: Request, key: string, st: Option<Bucket>, limit: int, window: int)
    requires Lookup(Purged(b, maxBuckets, c), key) == Unexpired(st, c.now)
    requires c.key == key ==> c.limit == limit && c.window == window
    ensures c.key == key ==>
      && (Step(b, maxBuckets, c).1.Allowed? <==> KeyStep(st, limit, window, c.now).1)
      && forall now :: c.now <= now ==>
           Unexpired(Lookup(Step(b, maxBuckets, c).0, key), now) == Unexpired(KeyStep(st, limit, window, c.now).0, now)
    ensures c.key != key ==>
      forall now :: c.now <= now ==> Unexpired(Lookup(Step(b, maxBuckets, c).0, key), now) == Unexpired(st, now)
  {
    hide Purged, Admit, Lookup, KeyStep, Unexpired;
    UnexpiredLater(st, c.now);
    if c.key == key {
      AdmitAgrees(Purged(b, maxBuckets, c), key, limit, window, c.now, st);
    } else {
      AdmitLeavesOthers(Purged(b, maxBuckets, c), c.key, key, c.limit, c.window, c.now);
    }
  }

  /** Purging on every check changes no decision: the verdict on the key after a run is the
      one of the purge-free specification. */
  lemma PurgeChangesNoDecision(maxBuckets: int, cs: seq<Request>, key: string, limit: int, window: int)
    requires cs != [] && Steady(maxBuckets, cs, key, limit, window) && Clocked(cs)
    requires cs[|cs| - 1].key == key
    ensures Verdict(maxBuckets, cs).Allowed?
      <==> KeyStep(KeyState(cs[..|cs| - 1], key, limit, window), limit, window, cs[|cs| - 1].now).1
  {
    var init := cs[..|cs| - 1];
    var c := cs[|cs| - 1];
    RunAgrees(maxBuckets, init, key, limit, window, c.now);
    PurgedLookup(Run(maxBuckets, init), maxBuckets, c, key);
    StepAgrees(Run(maxBuckets, init), maxBuckets, c, key, KeyState(init, key, limit, window), limit, window);
  }

  // ----- The bound -----

  /** Allowed checks of the key with a clock reading in [from, to), by the specification. */
  function Count(cs: seq<Request>, key: string, limit: int, window: int, from: Time, to: Time): nat {
    if cs == [] then 0
    else
      var init := cs[..|cs| - 1];
      var c := cs[|cs| - 1];
      Count(init, key, limit, window, from, to) +
      if c.key == key && from <= c.now < to && KeyStep(KeyState(init, key, limit, window), limit, window, c.now).1 then
        1 else 0
  }

  function Bound(limit: int): nat {
    if limit >= 1 then 2 * limit - 1 else 0
  }

  lemma {:induction false} CountSplit(cs: seq<Request>, key: string, limit: int, window: int, from: Time, mid: Time,
                                      to: Time)
    requires from <= mid <= to
    ensures Count(cs, key, limit, window, from, to)
         == Count(cs, key, limit, window, from, mid) + Count(cs, key, limit, window, mid, to)
  {
    if cs != [] {
      CountSplit(cs[..|cs| - 1], key, limit, window, from, mid, to);
    }
  }

  /** No interval one window long holds more than the bound. */
  ghost predicate Bounded(cs: seq<Request>, key: string, limit: int, window: int) {
    forall from, to :: to <= from + window as real ==> Count(cs, key, limit, window, from, to) <= Bound(limit)
  }

  /** The window `b` opened at its first allowed check and holds every allowed check since;
      less than one window length before it lie at most `limit - 1` allowed checks. */
  ghost predicate WindowOf(cs: seq<Request>, key: string, limit: int, window: int, b: Bucket) {
    var start := b.resetAt - window as real;
    && 1 <= b.count <= limit
    && (forall from, to :: start <= from ==> Count(cs, key, limit, window, from, to) <= b.count)
    && (forall from, to :: start < from ==> Count(cs, key, limit, window, from, to) <= b.count - 1)
    && (forall from, to :: b.resetAt <= from ==> Count(cs, key, limit, window, from, to) == 0)
    && (forall from, to :: to == start && start - window as real < from ==>
          Count(cs, key, limit, window, from, to) <= limit - 1)
  }

  ghost predicate Tracked(cs: seq<Request>, key: string, limit: int, window: int) {
    match KeyState(cs, key, limit, window)
    case None => forall from, to :: Count(cs, key, limit, window, from, to) == 0
    case Some(b) => cs != [] && b.resetAt - window as real <= cs[|cs| - 1].now && WindowOf(cs, key, limit, window, b)
  }

  lemma {:induction false} Tracking(cs: seq<Request>, key: string, limit: int, window: int)
    requires window > 0 && Clocked(cs)
    ensures Tracked(cs, key, limit, window) && Bounded(cs, key, limit, window)
  {
    if cs != [] {
      var init := cs[..|cs| - 1];
      var c := cs[|cs| - 1];
      Tracking(init, key, limit, window);
      var prev := KeyState(init, key, limit, window);
      if c.key == key && KeyStep(prev, limit, window, c.now).1 {
        if prev.Some? && c.now < prev.value.resetAt {
          SameWindow(cs, key, limit, window);
        } else {
          NewWindow(cs, key, limit, window);
        }
      } else {
        assert forall from, to :: Count(cs, key, limit, window, from, to) == Count(init, key, limit, window, from, to);
      }
    }
  }

  ghost predicate Extends(cs: seq<Request>, key: string, limit: int, window: int) {
    && cs != [] && window > 0 && Clocked(cs)
    && Tracked(cs[..|cs| - 1], key, limit, window) && Bounded(cs[..|cs| - 1], key, limit, window)
    && cs[|cs| - 1].key == key
    && KeyStep(KeyState(cs[..|cs| - 1], key, limit, window), limit, window, cs[|cs| - 1].now).1
  }

  lemma SameWindow(cs: seq<Request>, key: string, limit: int, window: int)
    requires Extends(cs, key, limit, window)
    requires var prev := KeyState(cs[..|cs| - 1], key, limit, window);
      prev.Some? && cs[|cs| - 1].now < prev.value.resetAt
    ensures Tracked(cs, key, limit, window) && Bounded(cs, key, limit, window)
  {
    var init := cs[..|cs| - 1];
    var now := cs[|cs| - 1].now;
    var b := KeyState(init, key, limit, window).value;
    var start := b.resetAt - window as real;
    assert forall from, to ::
      (Count(cs, key, limit, window, from, to)
       == Count(init, key, limit, window, from, to) + if from <= now < to then 1 else 0);
    assert start <= now;
    assert WindowOf(cs, key, limit, window, Bucket(b.count + 1, b.resetAt));
    forall from, to | to <= from + window as real
      ensures Count(cs, key, limit, window, from, to) <= Bound(limit)
    {
      if from <= now < to && from <= start {
        CountSplit(cs, key, limit, window, from, start, to);
      }
    }
  }

  lemma NewWindow(cs: seq<Request>, key: string, limit: int, window: int)
    requires Extends(cs, key, limit, window)
    requires var prev := KeyState(cs[..|cs| - 1], key, limit, window);
      !(prev.Some? && cs[|cs| - 1].now < prev.value.resetAt)
    ensures Tracked(cs, key, limit, window) && Bounded(cs, key, limit, window)
  {
    var init := cs[..|cs| - 1];
    var now := cs[|cs| - 1].now;
    assert forall from, to ::
      (Count(cs, key, limit, window, from, to)
       == Count(init, key, limit, window, from, to) + if from <= now < to then 1 else 0);
    assert forall from, to :: now <= from ==> Count(init, key, limit, window, from, to) == 0;
    assert forall from, to :: now - window as real < from ==> Count(init, key, limit, window, from, to) <= limit - 1;
    assert WindowOf(cs, key, limit, window, Bucket(1, now + window as real));
  }

  /** Allowed checks of the key in [from, to), by the verdicts of the run itself. */
  function AllowedIn(maxBuckets: int, cs: seq<Request>, key: string, from: Time, to: Time): nat {
    if cs == [] then 0
    else
      var c := cs[|cs| - 1];
      AllowedIn(maxBuckets, cs[..|cs| - 1], key, from, to) +
      if c.key == key && from <= c.now < to && Verdict(maxBuckets, cs).Allowed? then 1 else 0
  }

  lemma {:induction false} AllowedInIsCount(maxBuckets: int, cs: seq<Request>, key: string, limit: int, window: int,
                                            from: Time, to: Time)
    requires Steady(maxBuckets, cs, key, limit, window) && Clocked(cs)
    ensures AllowedIn(maxBuckets, cs, key, from, to) == Count(cs, key, limit, window, from, to)
  {
    if cs != [] {
      AllowedInIsCount(maxBuckets, cs[..|cs| - 1], key, limit, window, from, to);
      if cs[|cs| - 1].key == key {
        PurgeChangesNoDecision(maxBuckets, cs, key, limit, window);
      }
    }
  }

  /** In every half-open interval one window long, at most `2 * limit - 1` checks of a key are
      allowed: a window opens at an allowed check, so two windows never both fit whole. */
  lemma LimiterBound(maxBuckets: int, cs: seq<Request>, key: string, limit: int, window: int, from: Time)
    requires Clocked(cs) && window > 0 && Steady(maxBuckets, cs, key, limit, window)
    ensures AllowedIn(maxBuckets, cs, key, from, from + window as real) <= Bound(limit)
  {
    Tracking(cs, key, limit, window);
    AllowedInIsCount(maxBuckets, cs, key, limit, window, from, from + window as real);
  }

  // ----- The bound is reached -----

  /** `cs`, then `n` checks of one key at one clock reading. */
  function Burst(cs: seq<Request>, key: string, limit: int, window: int, now: Time, n: nat): seq<Request> {
    if n == 0 then cs else Burst(cs, key, limit, window, now, n - 1) + [Request(key, limit, window, now, key)]
  }

  /** A run of the class on one key that ends at `now` with the window `b`, and that has `n`
      allowed checks in [from, to). */
  ghost predicate Ends(maxBuckets: int, cs: seq<Request>, key: string, limit: int, window: int,
                       now: Time, b: Bucket, from: Time, to: Time, n: nat)
  {
    && Clocked(cs) && Feasible(maxBuckets, cs) && Steady(maxBuckets, cs, key, limit, window)
    && (cs != [] ==> cs[|cs| - 1].now <= now)
    && Run(maxBuckets, cs) == (if b.count == 0 then map[] else map[key := b])
    && AllowedIn(maxBuckets, cs, key, from, to) == n
  }

  lemma RunAppends(maxBuckets: int, cs: seq<Request>, c: Request, key: string, from: Time, to: Time)
    ensures Run(maxBuckets, cs + [c]) == Step(Run(maxBuckets, cs), maxBuckets, c).0
    ensures AllowedIn(maxBuckets, cs + [c], key, from, to)
         == AllowedIn(maxBuckets, cs, key, from, to)
          + if c.key == key && from <= c.now < to && Step(Run(maxBuckets, cs), maxBuckets, c).1.Allowed? then 1 else 0
  {
    hide Step;
    assert (cs + [c])[..|cs|] == cs;
  }

  lemma ShapeAppends(maxBuckets: int, cs: seq<Request>, c: Request, key: string, limit: int, window: int)
    requires Clocked(cs) && Feasible(maxBuckets, cs) && Steady(maxBuckets, cs, key, limit, window)
    requires cs != [] ==> cs[|cs| - 1].now <= c.now
    requires c.limit == limit && c.window == window && !NeedsRoom(Live(Run(maxBuckets, cs), c.now), c.key, maxBuckets)
    ensures Clocked(cs + [c]) && Feasible(maxBuckets, cs + [c]) && Steady(maxBuckets, cs + [c], key, limit, window)
  {
    hide Step, Run, Live, NeedsRoom;
    assert (cs + [c])[..|cs|] == cs;
  }

  lemma Extended(maxBuckets: int, cs: seq<Request>, key: string, limit: int, window: int,
                 last: Time, now: Time, b: Bucket, after: Bucket, from: Time, to: Time, n: nat)
    requires Ends(maxBuckets, cs, key, limit, window, last, b, from, to, n) && last <= now && after.count != 0
    requires var c := Request(key, limit, window, now, key);
      && !NeedsRoom(Live(Run(maxBuckets, cs), now), key, maxBuckets)
      && Step(Run(maxBuckets, cs), maxBuckets, c) == (map[key := after], Allowed)
    ensures Ends(maxBuckets, cs + [Request(key, limit, window, now, key)], key, limit, window, now,
                 after, from, to, n + if from <= now < to then 1 else 0)
  {
    hide Step, Live, NeedsRoom, Run, AllowedIn, Clocked, Feasible, Steady;
    var c := Request(key, limit, window, now, key);
    RunAppends(maxBuckets, cs, c, key, from, to);
    ShapeAppends(maxBuckets, cs, c, key, limit, window);
  }

  /** One more check of the key within its window, below the limit, is allowed. */
  lemma OneMore(maxBuckets: int, cs: seq<Request>, key: string, limit: int, window: int,
                last: Time, now: Time, b: Bucket, from: Time, to: Time, n: nat)
    requires maxBuckets >= 1 && Ends(maxBuckets, cs, key, limit, window, last, b, from, to, n)
    requires last <= now < b.resetAt && 0 <= b.count < limit
    requires b.count == 0 ==> b.resetAt == now + window as real
    ensures Ends(maxBuckets, cs + [Request(key, limit, window, now, key)], key, limit, window, now,
                 Bucket(b.count + 1, b.resetAt), from, to, n + if from <= now < to then 1 else 0)
  {
    hide Run, AllowedIn, Clocked, Feasible, Steady;
    var before := Run(maxBuckets, cs);
    assert Live(before, now) == before;
    assert before[key := Bucket(b.count + 1, b.resetAt)] == map[key := Bucket(b.count + 1, b.resetAt)];
    Extended(maxBuckets, cs, key, limit, window, last, now, b, Bucket(b.count + 1, b.resetAt), from, to, n);
  }

  /** The first check after the reset opens the next window. */
  lemma Reopens(maxBuckets: int, cs: seq<Request>, key: string, limit: int, window: int,
                now: Time, b: Bucket, from: Time, to: Time, n: nat)
    requires maxBuckets >= 1 && window > 0 && limit >= 1
    requires Ends(maxBuckets, cs, key, limit, window, now, b, from, to, n) && b.resetAt <= now
    ensures Ends(maxBuckets, cs + [Request(key, limit, window, now, key)], key, limit, window, now,
                 Bucket(1, now + window as real), from, to, n + if from <= now < to then 1 else 0)
  {
    hide Run, AllowedIn, Clocked, Feasible, Steady;
    assert Live(Run(maxBuckets, cs), now) == map[];
    Extended(maxBuckets, cs, key, limit, window, now, now, b, Bucket(1, now + window as real), from, to, n);
  }

  /** A burst at one reading is allowed up to the limit. */
  lemma {:induction false} BurstIsAllowed(maxBuckets: int, cs: seq<Request>, key: string, limit: int, window: int,
                                          now: Time, b: Bucket, from: Time, to: Time, n: nat, more: nat)
    requires maxBuckets >= 1 && Ends(maxBuckets, cs, key, limit, window, now, b, from, to, n)
    requires from <= now < to && now < b.resetAt && 1 <= b.count && b.count + more <= limit
    ensures Ends(maxBuckets, Burst(cs, key, limit, window, now, more), key, limit, window, now,
                 Bucket(b.count + more, b.resetAt), from, to, n + more)
  {
    hide Ends;
    if more > 0 {
      BurstIsAllowed(maxBuckets, cs, key, limit, window, now, b, from, to, n, more - 1);
      OneMore(maxBuckets, Burst(cs, key, limit, window, now, more - 1), key, limit, window, now, now,
              Bucket(b.count + more - 1, b.resetAt), from, to, n + more - 1);
    }
  }

  /** One check at 0, the rest of the limit half a window later, and a full limit at the reset. */
  function Straddle(key: string, limit: int, window: int): seq<Request>
    requires limit >= 1
  {
    var half := window as real / 2.0;
    var first := Burst([], key, limit, window, 0.0, 1);
    Burst(Burst(first, key, limit, window, half, limit - 1), key, limit, window, window as real, limit)
  }

  lemma Later(maxBuckets: int, cs: seq<Request>, key: string, limit: int, window: int,
              last: Time, now: Time, b: Bucket, from: Time, to: Time, n: nat)
    requires Ends(maxBuckets, cs, key, limit, window, last, b, from, to, n) && last <= now
    ensures Ends(maxBuckets, cs, key, limit, window, now, b, from, to, n)
  {
  }

  /** At the reset a whole limit is allowed at once. */
  lemma Refilled(maxBuckets: int, cs: seq<Request>, key: string, limit: int, window: int,
                 now: Time, b: Bucket, from: Time, to: Time, n: nat)
    requires maxBuckets >= 1 && window > 0 && limit >= 1 && from <= now < to
    requires Ends(maxBuckets, cs, key, limit, window, now, b, from, to, n) && b.resetAt <= now
    ensures Ends(maxBuckets, Burst(cs, key, limit, window, now, limit), key, limit, window, now,
                 Bucket(limit, now + window as real), from, to, n + limit)
  {
    hide Ends;
    var next := Bucket(1, now + window as real);
    var once := cs + [Request(key, limit, window, now, key)];
    Reopens(maxBuckets, cs, key, limit, window, now, b, from, to, n);
    BurstIsAllowed(maxBuckets, once, key, limit, window, now, next, from, to, n + 1, limit - 1);
    BurstUnrolls(cs, key, limit, window, now, limit - 1);
  }

  lemma {:induction false} BurstUnrolls(cs: seq<Request>, key: string, limit: int, window: int, now: Time, n: nat)
    ensures Burst(cs, key, limit, window, now, n + 1)
         == Burst(cs + [Request(key, limit, window, now, key)], key, limit, window, now, n)
  {
    if n > 0 {
      BurstUnrolls(cs, key, limit, window, now, n - 1);
    }
  }

  lemma NoChecks(maxBuckets: int, key: string, limit: int, window: int, b: Bucket, from: Time, to: Time)
    requires b.count == 0
    ensures Ends(maxBuckets, [], key, limit, window, 0.0, b, from, to, 0)
  {
  }

  lemma BurstOfOne(cs: seq<Request>, key: string, limit: int, window: int, now: Time)
    ensures Burst(cs, key, limit, window, now, 1) == cs + [Request(key, limit, window, now, key)]
  {
    assert Burst(cs, key, limit, window, now, 0) == cs;
  }

  lemma StraddleEnds(maxBuckets: int, key: string, limit: int, window: int)
    requires maxBuckets >= 1 && limit >= 1 && window > 0
    ensures var half := window as real / 2.0;
      Ends(maxBuckets, Straddle(key, limit, window), key, limit, window, window as real,
           Bucket(limit, window as real + window as real), half, half + window as real, 2 * limit - 1)
  {
    hide Ends, Burst;
    var w := window as real;
    var half := w / 2.0;
    var to := half + w;
    NoChecks(maxBuckets, key, limit, window, Bucket(0, w), half, to);
    OneMore(maxBuckets, [], key, limit, window, 0.0, 0.0, Bucket(0, w), half, to, 0);
    var once := Burst([], key, limit, window, 0.0, 1);
    BurstOfOne([], key, limit, window, 0.0);
    var filled := Burst(once, key, limit, window, half, limit - 1);
    Later(maxBuckets, once, key, limit, window, 0.0, half, Bucket(1, w), half, to, 0);
    BurstIsAllowed(maxBuckets, once, key, limit, window, half, Bucket(1, w), half, to, 0, limit - 1);
    Later(maxBuckets, filled, key, limit, window, half, w, Bucket(limit, w), half, to, limit - 1);
    Refilled(maxBuckets, filled, key, limit, window, w, Bucket(limit, w), half, to, limit - 1);
  }

  /** The bound is reached, for every limit, every window and every positive capacity, by a run
      the class can produce. */
  lemma BoundIsTight(maxBuckets: int, key: string, limit: int, window: int)
    requires maxBuckets >= 1 && limit >= 1 && window > 0
    ensures var cs := Straddle(key, limit, window);
      var half := window as real / 2.0;
      && Clocked(cs) && Feasible(maxBuckets, cs) && Steady(maxBuckets, cs, key, limit, window)
      && AllowedIn(maxBuckets, cs, key, half, half + window as real) == Bound(limit)
  {
    hide Run, AllowedIn, Clocked, Feasible, Steady, Straddle;
    StraddleEnds(maxBuckets, key, limit, window);
  }
}

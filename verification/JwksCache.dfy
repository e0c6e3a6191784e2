/** The key-set cache for identity providers (`JWKSCache` in src/coreline_auth/social/discovery.py). */
module JwksCache {
  import opened Prelude

  /** Readings of the wall clock, in seconds. */
  type Time = real

  datatype RawKey = KeyObject(kid: Option<string>) | NotAnObject

  /** A fetched document: what it says elsewhere, and its `keys` member when that is a list. */
  datatype Jwks = Jwks(body: string, keys: Option<seq<RawKey>>)

  predicate ContainsKid(jwks: Jwks, kid: string) {
    jwks.keys.Some? && exists i :: 0 <= i < |jwks.keys.value| && jwks.keys.value[i] == KeyObject(Some(kid))
  }

  datatype Entry = Entry(expiresAt: Time, jwks: Jwks)

  datatype State = State(cache: map<string, Entry>, missAfter: map<(string, string), Time>)

  datatype Failure = FetchFailed

  /** One call. `answer` is what the fetcher would return if it were called now. */
  datatype Get = Get(uri: string, kid: Option<string>, now: Time, answer: Option<Jwks>)

  datatype Kind = FromCache | Expired | KidFound | KidMissing

  predicate Stale(s: State, uri: string, now: Time) {
    uri !in s.cache || s.cache[uri].expiresAt <= now
  }

  predicate Cooling(s: State, uri: string, kid: string, now: Time) {
    var after := if (uri, kid) in s.missAfter then s.missAfter[(uri, kid)] else 0.0;
    after > now
  }

  /** What the call does to the fetcher: nothing, refresh a stale entry, or look again for a
      key id the cached document lacks. */
  predicate Fetches(s: State, g: Get) {
    || Stale(s, g.uri, g.now)
    || (g.kid.Some? && !ContainsKid(s.cache[g.uri].jwks, g.kid.value) && !Cooling(s, g.uri, g.kid.value, g.now))
  }

  function KindOf(s: State, g: Get): Kind {
    if !Fetches(s, g) || g.answer == None then FromCache
    else if Stale(s, g.uri, g.now) then Expired
    else if ContainsKid(g.answer.value, g.kid.value) then KidFound else KidMissing
  }

  function Step(ttl: int, cooldown: int, s: State, g: Get): (State, Result<Jwks, Failure>) {
    if !Fetches(s, g) then (s, Ok(s.cache[g.uri].jwks))
    else if g.answer == None then (s, Err(FetchFailed))
    else
      var cache := s.cache[g.uri := Entry(g.now + ttl as real, g.answer.value)];
      var missAfter :=
        if Stale(s, g.uri, g.now) then s.missAfter
        else if ContainsKid(g.answer.value, g.kid.value) then s.missAfter - {(g.uri, g.kid.value)}
        else s.missAfter[(g.uri, g.kid.value) := g.now + cooldown as real];
      (State(cache, missAfter), Ok(g.answer.value))
  }

  class JWKSCache {
    const ttl: int
    const cooldown: int
    var cache: map<string, Entry>
    var missAfter: map<(string, string), Time>

    ghost function Contents(): State
      reads this
    {
      State(cache, missAfter)
    }

    constructor (ttl: int, cooldown: int)
      ensures this.ttl == ttl && this.cooldown == cooldown && Contents() == State(map[], map[])
    {
      this.ttl, this.cooldown := ttl, cooldown;
      cache, missAfter := map[], map[];
    }

    /** `get_jwks`; `fetched` says whether the fetcher was called. */
    method GetJwks(uri: string, kid: Option<string>, now: Time, answer: Option<Jwks>)
      returns (r: Result<Jwks, Failure>, fetched: bool)
      modifies this
      ensures (Contents(), r) == Step(ttl, cooldown, old(Contents()), Get(uri, kid, now, answer))
      ensures fetched <==> Fetches(old(Contents()), Get(uri, kid, now, answer))
    {
      if uri !in cache || cache[uri].expiresAt <= now {
        if answer == None {
          return Err(FetchFailed), true;
        }
        cache := cache[uri := Entry(now + ttl as real, answer.value)];
        return Ok(answer.value), true;
      }
      var jwks := cache[uri].jwks;
      if kid.Some? && !ContainsKid(jwks, kid.value) {
        var missKey := (uri, kid.value);
        var after := if missKey in missAfter then missAfter[missKey] else 0.0;
        if after > now {
          return Ok(jwks), false;
        }
        if answer == None {
          return Err(FetchFailed), true;
        }
        jwks := answer.value;
        cache := cache[uri := Entry(now + ttl as real, jwks)];
        if ContainsKid(jwks, kid.value) {
          missAfter := missAfter - {missKey};
        } else {
          missAfter := missAfter[missKey := now + cooldown as real];
        }
        return Ok(jwks), true;
      }
      return Ok(jwks), false;
    }
  }

  // ----- One call -----

  /** A stored document that has not reached its end. */
  predicate Fresh(s: State, g: Get) {
    g.uri in s.cache && g.now < s.cache[g.uri].expiresAt
  }

  /** One of the document's keys is an object with this key id. */
  predicate Carries(jwks: Jwks, kid: string) {
    jwks.keys.Some? && KeyObject(Some(kid)) in jwks.keys.value
  }

  /** The call must fetch: nothing fresh is stored, or it asks for a key id the stored document
      lacks and the cooldown of an earlier failed search is over. */
  predicate MustFetch(s: State, g: Get) {
    !Fresh(s, g) || (
      && g.kid.Some? && !Carries(s.cache[g.uri].jwks, g.kid.value)
      && (if (g.uri, g.kid.value) in s.missAfter then s.missAfter[(g.uri, g.kid.value)] <= g.now else 0.0 <= g.now))
  }

  /** Exactly when a call fetches, and what it then answers and stores. A fetch that raises changes
      nothing; a document lives for one lifetime; a search that misses its key starts a cooldown,
      one that finds it ends it, and a refresh leaves cooldowns alone. */
  lemma GetMeaning(ttl: int, cooldown: int, s: State, g: Get)
    ensures Fetches(s, g) <==> MustFetch(s, g)
    ensures var (s', r) := Step(ttl, cooldown, s, g);
      if !MustFetch(s, g) then s' == s && r == Ok(s.cache[g.uri].jwks)
      else if g.answer == None then s' == s && r == Err(FetchFailed)
      else
        && r == Ok(g.answer.value)
        && s'.cache == s.cache[g.uri := Entry(g.now + ttl as real, g.answer.value)]
        && s'.missAfter ==
           if !Fresh(s, g) then s.missAfter
           else if Carries(g.answer.value, g.kid.value) then s.missAfter - {(g.uri, g.kid.value)}
           else s.missAfter[(g.uri, g.kid.value) := g.now + cooldown as real]
  {
    forall jwks: Jwks, kid: string ensures ContainsKid(jwks, kid) <==> Carries(jwks, kid) {
      ContainsMeaning(jwks, kid);
    }
  }

  lemma ContainsMeaning(jwks: Jwks, kid: string)
    ensures ContainsKid(jwks, kid) <==> Carries(jwks, kid)
  {
  }

  // ----- Runs -----

  function Run(ttl: int, cooldown: int, s: State, gs: seq<Get>): State {
    if gs == [] then s else Step(ttl, cooldown, Run(ttl, cooldown, s, gs[..|gs| - 1]), gs[|gs| - 1]).0
  }

  predicate Clocked(t0: Time, gs: seq<Get>) {
    gs != [] ==>
      && Clocked(t0, gs[..|gs| - 1])
      && t0 <= gs[|gs| - 1].now
      && (|gs| >= 2 ==> gs[|gs| - 2].now <= gs[|gs| - 1].now)
  }

  function LastKind(ttl: int, cooldown: int, s: State, gs: seq<Get>): Kind
    requires gs != []
  {
    KindOf(Run(ttl, cooldown, s, gs[..|gs| - 1]), gs[|gs| - 1])
  }

  /** Fetches of one address, of one kind, that brought a document. */
  function Fetched(ttl: int, cooldown: int, s: State, gs: seq<Get>, uri: string, kind: Kind): nat {
    if gs == [] then 0
    else
      Fetched(ttl, cooldown, s, gs[..|gs| - 1], uri, kind) +
      if gs[|gs| - 1].uri == uri && LastKind(ttl, cooldown, s, gs) == kind then 1 else 0
  }

  /** Fetches of one address for one key id that did not bring the key. */
  function Missed(ttl: int, cooldown: int, s: State, gs: seq<Get>, uri: string, kid: string): nat {
    if gs == [] then 0
    else
      var g := gs[|gs| - 1];
      Missed(ttl, cooldown, s, gs[..|gs| - 1], uri, kid) +
      if g.uri == uri && g.kid == Some(kid) && LastKind(ttl, cooldown, s, gs) == KidMissing then 1 else 0
  }

  /** All fetches of an address that brought a document. */
  function AllFetched(ttl: int, cooldown: int, s: State, gs: seq<Get>, uri: string): nat {
    if gs == [] then 0
    else
      AllFetched(ttl, cooldown, s, gs[..|gs| - 1], uri) +
      if gs[|gs| - 1].uri == uri && LastKind(ttl, cooldown, s, gs) != FromCache then 1 else 0
  }

  predicate LastFetches(ttl: int, cooldown: int, s: State, gs: seq<Get>)
    requires gs != []
  {
    Fetches(Run(ttl, cooldown, s, gs[..|gs| - 1]), gs[|gs| - 1])
  }

  /** Every call of the fetcher for an address, answered or not. */
  function Attempts(ttl: int, cooldown: int, s: State, gs: seq<Get>, uri: string): nat {
    if gs == [] then 0
    else
      Attempts(ttl, cooldown, s, gs[..|gs| - 1], uri) +
      if gs[|gs| - 1].uri == uri && LastFetches(ttl, cooldown, s, gs) then 1 else 0
  }

  /** The calls of the fetcher that raised. */
  function Raised(ttl: int, cooldown: int, s: State, gs: seq<Get>, uri: string): nat {
    if gs == [] then 0
    else
      Raised(ttl, cooldown, s, gs[..|gs| - 1], uri) +
      if gs[|gs| - 1].uri == uri && gs[|gs| - 1].answer == None && LastFetches(ttl, cooldown, s, gs) then 1 else 0
  }

  lemma {:induction false} AttemptsSplit(ttl: int, cooldown: int, s: State, gs: seq<Get>, uri: string)
    ensures Attempts(ttl, cooldown, s, gs, uri)
      == AllFetched(ttl, cooldown, s, gs, uri) + Raised(ttl, cooldown, s, gs, uri)
  {
    hide Run, Stale, Cooling, ContainsKid;
    if gs != [] {
      AttemptsSplit(ttl, cooldown, s, gs[..|gs| - 1], uri);
    }
  }

  /** The fetcher is down: every answer would be an error. */
  predicate Outage(gs: seq<Get>) {
    forall i :: 0 <= i < |gs| ==> gs[i].answer == None
  }

  /** The calls for an address that would fetch if they came first. */
  function Asking(s: State, gs: seq<Get>, uri: string): nat {
    if gs == [] then 0
    else
      var g := gs[|gs| - 1];
      Asking(s, gs[..|gs| - 1], uri) + if g.uri == uri && Fetches(s, g) then 1 else 0
  }

  function CallsTo(gs: seq<Get>, uri: string): nat {
    if gs == [] then 0 else CallsTo(gs[..|gs| - 1], uri) + if gs[|gs| - 1].uri == uri then 1 else 0
  }

  /** A fetch that raises is remembered nowhere: through an outage nothing changes, and every call
      that would fetch on its own does. */
  lemma {:induction false} OutageRefetches(ttl: int, cooldown: int, s: State, gs: seq<Get>, uri: string)
    requires Outage(gs)
    ensures Run(ttl, cooldown, s, gs) == s
    ensures Attempts(ttl, cooldown, s, gs, uri) == Asking(s, gs, uri) && AllFetched(ttl, cooldown, s, gs, uri) == 0
  {
    hide Stale, Cooling, ContainsKid;
    if gs != [] {
      var init := gs[..|gs| - 1];
      assert forall i :: 0 <= i < |init| ==> init[i] == gs[i];
      OutageRefetches(ttl, cooldown, s, init, uri);
    }
  }

  /** Without a fresh entry every call for the address fetches until the outage ends. */
  lemma {:induction false} OutageOfStaleEntry(ttl: int, cooldown: int, s: State, gs: seq<Get>, uri: string, t0: Time)
    requires Outage(gs) && Clocked(t0, gs) && Stale(s, uri, t0)
    ensures Attempts(ttl, cooldown, s, gs, uri) == CallsTo(gs, uri)
  {
    hide Cooling, ContainsKid;
    if gs != [] {
      var init := gs[..|gs| - 1];
      assert forall i :: 0 <= i < |init| ==> init[i] == gs[i];
      OutageOfStaleEntry(ttl, cooldown, s, init, uri, t0);
      OutageRefetches(ttl, cooldown, s, init, uri);
    }
  }

  /** Key ids whose search failed at least once. */
  function MissedKids(ttl: int, cooldown: int, s: State, gs: seq<Get>, uri: string): set<string> {
    if gs == [] then {}
    else
      var g := gs[|gs| - 1];
      MissedKids(ttl, cooldown, s, gs[..|gs| - 1], uri) +
      if g.uri == uri && LastKind(ttl, cooldown, s, gs) == KidMissing then {g.kid.value} else {}
  }

  /** How many events spaced at least `gap` apart fit into a span. */
  function Spaced(span: Time, gap: int): nat
    requires span >= 0.0 && gap > 0
  {
    1 + (span / gap as real).Floor
  }

  function Times(n: int, gap: int): Time {
    n as real * gap as real
  }

  lemma TimesNext(n: int, gap: int)
    ensures Times(n + 1, gap) == Times(n, gap) + gap as real
  {
  }

  lemma SpacedBound(n: nat, span: Time, gap: int)
    requires gap > 0 && span >= 0.0
    requires n >= 1 ==> Times(n - 1, gap) <= span
    ensures n <= Spaced(span, gap)
  {
    if n >= 1 {
      assert (n - 1) as real <= span / gap as real;
    }
  }

  /** After a refresh the entry lives at least until `bar`. */
  predicate LivesUntil(s: State, uri: string, bar: Time) {
    uri in s.cache && s.cache[uri].expiresAt >= bar
  }

  lemma RefreshStep(ttl: int, cooldown: int, s: State, g: Get, uri: string, bar: Time)
    requires ttl > 0
    ensures g.uri == uri && KindOf(s, g) == Expired ==>
      LivesUntil(Step(ttl, cooldown, s, g).0, uri, g.now + ttl as real)
    ensures LivesUntil(s, uri, bar) && g.uri == uri && KindOf(s, g) == Expired ==> g.now >= bar
    ensures LivesUntil(s, uri, bar) && bar <= g.now + ttl as real ==> LivesUntil(Step(ttl, cooldown, s, g).0, uri, bar)
  {
  }

  /** Refreshes push the expiry one lifetime further each. */
  lemma {:induction false} RefreshesAreSpaced(ttl: int, cooldown: int, s: State, gs: seq<Get>, uri: string, t0: Time)
    requires ttl > 0 && Clocked(t0, gs)
    ensures var n := Fetched(ttl, cooldown, s, gs, uri, Expired);
      n >= 1 ==>
        && LivesUntil(Run(ttl, cooldown, s, gs), uri, t0 + Times(n, ttl))
        && Times(n - 1, ttl) <= gs[|gs| - 1].now - t0
  {
    if gs != [] {
      var init := gs[..|gs| - 1];
      var g := gs[|gs| - 1];
      RefreshesAreSpaced(ttl, cooldown, s, init, uri, t0);
      var n: int := Fetched(ttl, cooldown, s, init, uri, Expired);
      TimesNext(n, ttl);
      TimesNext(n - 1, ttl);
      RefreshStep(ttl, cooldown, Run(ttl, cooldown, s, init), g, uri, t0 + Times(n, ttl));
      if n >= 1 {
        assert gs[|gs| - 2] == init[|init| - 1];
      } else {
        assert Times(0, ttl) == 0.0;
      }
    }
  }

  /** The cooldown of a key id runs at least until `bar`, or `bar` has passed. */
  predicate CoolsUntil(s: State, uri: string, kid: string, bar: Time, now: Time) {
    if (uri, kid) in s.missAfter then s.missAfter[(uri, kid)] >= bar else now >= bar
  }

  predicate MissOf(s: State, g: Get, uri: string, kid: string) {
    g.uri == uri && g.kid == Some(kid) && KindOf(s, g) == KidMissing
  }

  lemma MissStep(ttl: int, cooldown: int, s: State, g: Get, uri: string, kid: string, bar: Time, before: Time)
    requires cooldown > 0 && before <= g.now
    ensures MissOf(s, g, uri, kid) ==>
      CoolsUntil(Step(ttl, cooldown, s, g).0, uri, kid, g.now + cooldown as real, g.now)
    ensures CoolsUntil(s, uri, kid, bar, before) && MissOf(s, g, uri, kid) ==> g.now >= bar
    ensures CoolsUntil(s, uri, kid, bar, before) && !MissOf(s, g, uri, kid) ==>
      CoolsUntil(Step(ttl, cooldown, s, g).0, uri, kid, bar, g.now)
  {
  }

  /** Failed searches for one key id lie a cooldown apart, even when a successful search in
      between forgets the cooldown. */
  lemma {:induction false} MissesAreSpaced(ttl: int, cooldown: int, s: State, gs: seq<Get>, uri: string, kid: string,
                                           t0: Time)
    requires cooldown > 0 && Clocked(t0, gs)
    ensures var n := Missed(ttl, cooldown, s, gs, uri, kid);
      n >= 1 ==>
        && CoolsUntil(Run(ttl, cooldown, s, gs), uri, kid, t0 + Times(n, cooldown), gs[|gs| - 1].now)
        && Times(n - 1, cooldown) <= gs[|gs| - 1].now - t0
  {
    if gs != [] {
      var init := gs[..|gs| - 1];
      var g := gs[|gs| - 1];
      MissesAreSpaced(ttl, cooldown, s, init, uri, kid, t0);
      var n: int := Missed(ttl, cooldown, s, init, uri, kid);
      TimesNext(n, cooldown);
      TimesNext(n - 1, cooldown);
      if n >= 1 {
        assert gs[|gs| - 2] == init[|init| - 1];
        MissStep(ttl, cooldown, Run(ttl, cooldown, s, init), g, uri, kid, t0 + Times(n, cooldown),
                 init[|init| - 1].now);
      } else {
        assert Times(0, cooldown) == 0.0;
        MissStep(ttl, cooldown, Run(ttl, cooldown, s, init), g, uri, kid, t0, g.now);
      }
    }
  }

  /** The sum over key ids of their failed searches. */
  ghost function MissedSum(ttl: int, cooldown: int, s: State, gs: seq<Get>, uri: string, kids: set<string>): nat
  {
    if kids == {} then 0
    else
      var kid :| kid in kids;
      Missed(ttl, cooldown, s, gs, uri, kid) + MissedSum(ttl, cooldown, s, gs, uri, kids - {kid})
  }

  lemma {:induction false} MissedSumBound(ttl: int, cooldown: int, s: State, gs: seq<Get>, uri: string,
                                          kids: set<string>, most: nat)
    requires forall kid :: kid in kids ==> Missed(ttl, cooldown, s, gs, uri, kid) <= most
    ensures MissedSum(ttl, cooldown, s, gs, uri, kids) <= |kids| * most
  {
    hide Missed;
    if kids != {} {
      var kid :| kid in kids && MissedSum(ttl, cooldown, s, gs, uri, kids)
        == Missed(ttl, cooldown, s, gs, uri, kid) + MissedSum(ttl, cooldown, s, gs, uri, kids - {kid});
      MissedSumBound(ttl, cooldown, s, gs, uri, kids - {kid}, most);
      assert |kids - {kid}| == |kids| - 1;
      assert (|kids| - 1) * most + most == |kids| * most;
    }
  }

  /** Extending the run by one call adds one miss at the call's key id and none elsewhere. */
  lemma {:induction false} MissedSumStep(ttl: int, cooldown: int, s: State, gs: seq<Get>, uri: string,
                                         kids: set<string>)
    requires gs != []
    ensures MissedSum(ttl, cooldown, s, gs, uri, kids)
         == MissedSum(ttl, cooldown, s, gs[..|gs| - 1], uri, kids)
          + if gs[|gs| - 1].uri == uri && LastKind(ttl, cooldown, s, gs) == KidMissing
            && gs[|gs| - 1].kid.value in kids then 1 else 0
  {
    var init := gs[..|gs| - 1];
    if kids != {} {
      var kid :| kid in kids && MissedSum(ttl, cooldown, s, gs, uri, kids)
        == Missed(ttl, cooldown, s, gs, uri, kid) + MissedSum(ttl, cooldown, s, gs, uri, kids - {kid});
      MissedSumStep(ttl, cooldown, s, gs, uri, kids - {kid});
      MissedSumTake(ttl, cooldown, s, init, uri, kids, kid);
      var g := gs[|gs| - 1];
      var missing := g.uri == uri && LastKind(ttl, cooldown, s, gs) == KidMissing;
      assert missing ==> g.kid.Some?;
      assert Missed(ttl, cooldown, s, gs, uri, kid)
        == Missed(ttl, cooldown, s, init, uri, kid) + if missing && g.kid == Some(kid) then 1 else 0;
      assert missing ==> (g.kid.value in kids <==> g.kid.value in kids - {kid} || g.kid.value == kid);
    }
  }

  lemma {:induction false} MissedSumTake(ttl: int, cooldown: int, s: State, gs: seq<Get>, uri: string,
                                         kids: set<string>, kid: string)
    requires kid in kids
    ensures MissedSum(ttl, cooldown, s, gs, uri, kids)
         == Missed(ttl, cooldown, s, gs, uri, kid) + MissedSum(ttl, cooldown, s, gs, uri, kids - {kid})
  {
    var first :| first in kids && MissedSum(ttl, cooldown, s, gs, uri, kids)
      == Missed(ttl, cooldown, s, gs, uri, first) + MissedSum(ttl, cooldown, s, gs, uri, kids - {first});
    if first != kid {
      MissedSumTake(ttl, cooldown, s, gs, uri, kids - {first}, kid);
      MissedSumTake(ttl, cooldown, s, gs, uri, kids - {kid}, first);
      assert kids - {first} - {kid} == kids - {kid} - {first};
    }
  }

  /** Every fetch is a refresh, a successful search, or a failed search for one of the key ids. */
  lemma {:induction false} FetchesByKind(ttl: int, cooldown: int, s: State, gs: seq<Get>, uri: string,
                                         kids: set<string>)
    requires MissedKids(ttl, cooldown, s, gs, uri) <= kids
    ensures AllFetched(ttl, cooldown, s, gs, uri)
         == Fetched(ttl, cooldown, s, gs, uri, Expired) + Fetched(ttl, cooldown, s, gs, uri, KidFound)
          + MissedSum(ttl, cooldown, s, gs, uri, kids)
  {
    if gs != [] {
      FetchesByKind(ttl, cooldown, s, gs[..|gs| - 1], uri, kids);
      MissedSumStep(ttl, cooldown, s, gs, uri, kids);
    } else {
      NoMisses(ttl, cooldown, s, uri, kids);
    }
  }

  lemma {:induction false} NoMisses(ttl: int, cooldown: int, s: State, uri: string, kids: set<string>)
    ensures MissedSum(ttl, cooldown, s, [], uri, kids) == 0
  {
    MissedSumBound(ttl, cooldown, s, [], uri, kids, 0);
  }

  /** Over a span, the calls of the fetcher for one address number at most the spaced refreshes,
      plus the spaced failed searches for each key id ever missed, plus the searches that found
      their key, plus the fetches that raised. Any other addresses may be used in between. */
  lemma FetchBound(ttl: int, cooldown: int, s: State, gs: seq<Get>, uri: string, t0: Time, span: Time)
    requires ttl > 0 && cooldown > 0 && span >= 0.0
    requires Clocked(t0, gs) && (gs != [] ==> gs[|gs| - 1].now <= t0 + span)
    ensures Attempts(ttl, cooldown, s, gs, uri)
         <= Spaced(span, ttl) + |MissedKids(ttl, cooldown, s, gs, uri)| * Spaced(span, cooldown)
          + Fetched(ttl, cooldown, s, gs, uri, KidFound) + Raised(ttl, cooldown, s, gs, uri)
  {
    hide MissedSum, Spaced, Times, Run, LivesUntil, CoolsUntil, Clocked;
    var kids := MissedKids(ttl, cooldown, s, gs, uri);
    AttemptsSplit(ttl, cooldown, s, gs, uri);
    FetchesByKind(ttl, cooldown, s, gs, uri, kids);
    RefreshesAreSpaced(ttl, cooldown, s, gs, uri, t0);
    SpacedBound(Fetched(ttl, cooldown, s, gs, uri, Expired), span, ttl);
    forall kid | kid in kids ensures Missed(ttl, cooldown, s, gs, uri, kid) <= Spaced(span, cooldown) {
      MissesAreSpaced(ttl, cooldown, s, gs, uri, kid, t0);
      SpacedBound(Missed(ttl, cooldown, s, gs, uri, kid), span, cooldown);
    }
    MissedSumBound(ttl, cooldown, s, gs, uri, kids, Spaced(span, cooldown));
  }

  /** No answer for the address contains the key id asked for with it. */
  predicate KeysStayMissing(gs: seq<Get>, uri: string) {
    forall i :: 0 <= i < |gs| && gs[i].uri == uri && gs[i].kid.Some? && gs[i].answer.Some? ==>
      !ContainsKid(gs[i].answer.value, gs[i].kid.value)
  }

  lemma {:induction false} NothingFound(ttl: int, cooldown: int, s: State, gs: seq<Get>, uri: string)
    requires KeysStayMissing(gs, uri)
    ensures Fetched(ttl, cooldown, s, gs, uri, KidFound) == 0
  {
    if gs != [] {
      var init := gs[..|gs| - 1];
      assert forall i :: 0 <= i < |init| ==> init[i] == gs[i];
      NothingFound(ttl, cooldown, s, init, uri);
      assert gs[|gs| - 1].uri == uri ==> LastKind(ttl, cooldown, s, gs) != KidFound;
    }
  }

  lemma {:induction false} MissedWereAsked(ttl: int, cooldown: int, s: State, gs: seq<Get>, uri: string,
                                           kids: set<string>)
    requires forall i :: 0 <= i < |gs| && gs[i].uri == uri && gs[i].kid.Some? ==> gs[i].kid.value in kids
    ensures MissedKids(ttl, cooldown, s, gs, uri) <= kids
  {
    if gs != [] {
      var init := gs[..|gs| - 1];
      assert forall i :: 0 <= i < |init| ==> init[i] == gs[i];
      MissedWereAsked(ttl, cooldown, s, init, uri, kids);
    }
  }

  /** When only key ids of a given set are asked for and no document contains them, the fetches
      are bounded whatever the number of calls, but for those that raised. */
  lemma MissingKeysBound(ttl: int, cooldown: int, s: State, gs: seq<Get>, uri: string, kids: set<string>, t0: Time,
                         span: Time)
    requires ttl > 0 && cooldown > 0 && span >= 0.0
    requires Clocked(t0, gs) && (gs != [] ==> gs[|gs| - 1].now <= t0 + span)
    requires KeysStayMissing(gs, uri)
    requires forall i :: 0 <= i < |gs| && gs[i].uri == uri && gs[i].kid.Some? ==> gs[i].kid.value in kids
    ensures Attempts(ttl, cooldown, s, gs, uri)
         <= Spaced(span, ttl) + |kids| * Spaced(span, cooldown) + Raised(ttl, cooldown, s, gs, uri)
  {
    FetchBound(ttl, cooldown, s, gs, uri, t0, span);
    NothingFound(ttl, cooldown, s, gs, uri);
    MissedWereAsked(ttl, cooldown, s, gs, uri, kids);
    var missed := MissedKids(ttl, cooldown, s, gs, uri);
    SubsetCardinality(missed, kids);
    ScaleMonotone(|missed|, |kids|, Spaced(span, cooldown));
  }

  lemma ScaleMonotone(a: nat, b: nat, m: nat)
    requires a <= b
    ensures a * m <= b * m
  {
  }

  // ----- Freshness -----

  function Answered(ttl: int, cooldown: int, gs: seq<Get>): Result<Jwks, Failure>
    requires gs != []
  {
    Step(ttl, cooldown, Run(ttl, cooldown, State(map[], map[]), gs[..|gs| - 1]), gs[|gs| - 1]).1
  }

  /** Call `i` of the run asked for this address and its fetcher answered `jwks`. */
  predicate AnswerAt(gs: seq<Get>, i: int, uri: string, jwks: Jwks, at: Time) {
    0 <= i < |gs| && gs[i].uri == uri && gs[i].answer == Some(jwks) && gs[i].now == at
  }

  ghost predicate Sourced(gs: seq<Get>, uri: string, jwks: Jwks, at: Time) {
    exists i :: AnswerAt(gs, i, uri, jwks, at)
  }

  lemma SourcedLater(gs: seq<Get>, uri: string, jwks: Jwks, at: Time)
    requires gs != [] && Sourced(gs[..|gs| - 1], uri, jwks, at)
    ensures Sourced(gs, uri, jwks, at)
  {
    var i :| AnswerAt(gs[..|gs| - 1], i, uri, jwks, at);
    assert AnswerAt(gs, i, uri, jwks, at);
  }

  /** Every cached document is an answer of the fetcher, received one lifetime before it expires. */
  lemma {:induction false} CacheIsSourced(ttl: int, cooldown: int, gs: seq<Get>, uri: string)
    ensures var cache := Run(ttl, cooldown, State(map[], map[]), gs).cache;
      uri in cache ==> Sourced(gs, uri, cache[uri].jwks, cache[uri].expiresAt - ttl as real)
  {
    if gs != [] {
      var init := gs[..|gs| - 1];
      var g := gs[|gs| - 1];
      var s := Run(ttl, cooldown, State(map[], map[]), init);
      CacheIsSourced(ttl, cooldown, init, uri);
      if g.uri == uri && KindOf(s, g) != FromCache {
        assert AnswerAt(gs, |gs| - 1, uri, g.answer.value, g.now);
      } else if uri in s.cache {
        SourcedLater(gs, uri, s.cache[uri].jwks, s.cache[uri].expiresAt - ttl as real);
      }
    }
  }

  /** Every document handed out was answered by the fetcher for that address, at this very
      call or less than one lifetime ago. */
  lemma AnswersAreFresh(ttl: int, cooldown: int, gs: seq<Get>)
    requires gs != [] && Answered(ttl, cooldown, gs).Ok?
    ensures var g := gs[|gs| - 1];
      exists at :: Sourced(gs, g.uri, Answered(ttl, cooldown, gs).value, at)
        && (at == g.now || g.now - ttl as real < at)
  {
    var init := gs[..|gs| - 1];
    var g := gs[|gs| - 1];
    var s := Run(ttl, cooldown, State(map[], map[]), init);
    if Fetches(s, g) {
      assert AnswerAt(gs, |gs| - 1, g.uri, g.answer.value, g.now);
      assert Sourced(gs, g.uri, g.answer.value, g.now);
    } else {
      CacheIsSourced(ttl, cooldown, init, g.uri);
      SourcedLater(gs, g.uri, s.cache[g.uri].jwks, s.cache[g.uri].expiresAt - ttl as real);
    }
  }

  /** With a fetcher that always gives the same document for an address, the cache is
      transparent: it hands out that document, whatever it fetched or skipped. */
  lemma ConstantFetcherIsTransparent(ttl: int, cooldown: int, gs: seq<Get>, document: string -> Jwks)
    requires gs != []
    requires forall i :: 0 <= i < |gs| && gs[i].answer.Some? ==> gs[i].answer == Some(document(gs[i].uri))
    ensures Answered(ttl, cooldown, gs).Ok? ==> Answered(ttl, cooldown, gs).value == document(gs[|gs| - 1].uri)
  {
    if Answered(ttl, cooldown, gs).Ok? {
      AnswersAreFresh(ttl, cooldown, gs);
    }
  }
}

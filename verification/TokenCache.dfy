/** Requests for tokens, over whole runs, and the service that keeps the two maps. */
module TokenCache {
  import opened Prelude
  import opened TokenModel

  /** The promise of a token: the request is out, answered or refused, or out of the map. */
  datatype Phase = Open | Answered | Settled

  datatype Mint = Mint(scope: Scope, caching: bool, phase: Phase)

  /** The two maps, every promise ever made, and every use of a key. */
  datatype State = State(entries: seq<Entry>, inFlight: map<string, nat>, mints: seq<Mint>, uses: seq<Use>)

  datatype Ask = Ask(scope: Scope, useCache: bool, forceRefresh: bool, maxAge: Option<int>, now: int)

  /** Where a caller's token comes from: the cache, a request under way, or a request of its own. */
  datatype Outcome = Cached(mint: nat) | Joined(mint: nat) | Started(mint: nat)

  datatype Event =
    | Asked(ask: Ask)
    | MintAnswered(mint: nat, expiresAt: Option<int>, now: int)
    | MintRefused(mint: nat)
    | MintSettled(mint: nat)

  const INITIAL := State([], map[], [], [])

  function MaxAge(a: Ask): int {
    Max(0, Or(a.maxAge, DEFAULT_MAX_AGE))
  }

  predicate IsFresh(e: Entry, maxAge: int, now: int) {
    e.expiresAt - REFRESH_BUFFER > now && e.storedAt + maxAge > now
  }

  function Forget(s: State, key: string): State {
    s.(entries := Delete(s.entries, key), uses := s.uses + [Drop(key)])
  }

  /** The cached token of a key, if fresh; a stale one is forgotten. */
  function Get(s: State, key: string, maxAge: int, now: int): (State, Option<Entry>) {
    match IndexOf(s.entries, key)
    case None => (Forget(s, key), None)
    case Some(i) =>
      var e := s.entries[i];
      if IsFresh(e, maxAge, now)
      then (s.(entries := Delete(s.entries, key) + [e], uses := s.uses + [Touch(key)]), Some(e))
      else (Forget(s, key), None)
  }

  /** No usable token is cached: join the request under way, or start one. */
  function JoinOrStart(s: State, a: Ask): (State, Outcome) {
    var key := CacheKey(a.scope);
    if key in s.inFlight then (s, Joined(s.inFlight[key]))
    else
      var n := |s.mints|;
      (s.(inFlight := s.inFlight[key := n], mints := s.mints + [Mint(a.scope, a.useCache, Open)]), Started(n))
  }

  function Create(s: State, a: Ask): (State, Outcome) {
    var key := CacheKey(a.scope);
    if a.useCache && a.forceRefresh then JoinOrStart(Forget(s, key), a)
    else if a.useCache then
      var (next, cached) := Get(s, key, MaxAge(a), a.now);
      if cached.Some? then (next, Cached(cached.value.mint)) else JoinOrStart(next, a)
    else JoinOrStart(s, a)
  }

  predicate Enabled(s: State, e: Event) {
    match e
    case Asked(_) => true
    case MintAnswered(m, _, _) => m < |s.mints| && s.mints[m].phase == Open
    case MintRefused(m) => m < |s.mints| && s.mints[m].phase == Open
    case MintSettled(m) => m < |s.mints| && s.mints[m].phase == Answered
  }

  function SetPhase(s: State, m: nat, p: Phase): State
    requires m < |s.mints|
  {
    s.(mints := s.mints[m := s.mints[m].(phase := p)])
  }

  /** The answer is cached when its request was made for a caller that uses the cache, and it says when it expires. */
  function Answer(s: State, m: nat, expiresAt: Option<int>, now: int): State
    requires m < |s.mints|
  {
    var key := CacheKey(s.mints[m].scope);
    if s.mints[m].caching && expiresAt.Some? then
      SetPhase(s, m, Answered).(
        entries := Store(s.entries, Entry(key, m, expiresAt.value, now)), uses := s.uses + [Touch(key)])
    else SetPhase(s, m, Answered)
  }

  function Settle(s: State, m: nat): State
    requires m < |s.mints|
  {
    SetPhase(s, m, Settled).(inFlight := s.inFlight - {CacheKey(s.mints[m].scope)})
  }

  function Do(s: State, e: Event): State
    requires Enabled(s, e)
  {
    match e
    case Asked(a) => Create(s, a).0
    case MintAnswered(m, expiresAt, now) => Answer(s, m, expiresAt, now)
    case MintRefused(m) => SetPhase(s, m, Answered)
    case MintSettled(m) => Settle(s, m)
  }

  ghost predicate EntriesMatch(s: State) {
    forall e :: e in s.entries ==>
      e.mint < |s.mints| && s.mints[e.mint].caching && CacheKey(s.mints[e.mint].scope) == e.key
  }

  /** The map in flight holds, under its key, each promise not yet settled, and no other. */
  ghost predicate InFlightMatches(s: State) {
    && (forall k :: k in s.inFlight ==>
          && s.inFlight[k] < |s.mints|
          && CacheKey(s.mints[s.inFlight[k]].scope) == k
          && s.mints[s.inFlight[k]].phase != Settled)
    && (forall m :: 0 <= m < |s.mints| && s.mints[m].phase != Settled ==>
          CacheKey(s.mints[m].scope) in s.inFlight && s.inFlight[CacheKey(s.mints[m].scope)] == m)
  }

  ghost predicate Inv(s: State) {
    IsLru(s.entries, s.uses) && EntriesMatch(s) && InFlightMatches(s)
  }

  lemma InvIsLru(s: State)
    requires Inv(s)
    ensures IsLru(s.entries, s.uses) && Distinct(s.entries)
  {
  }

  lemma DropKeepsInv(s: State, key: string)
    requires Inv(s)
    ensures Inv(Forget(s, key))
  {
    hide Delete, InOrder, CacheKey, IsLru, InFlightMatches;
    DropsLru(s.entries, s.uses, key);
    UnusedParts(s, Forget(s, key));
  }

  lemma DropsLru(es: seq<Entry>, uses: seq<Use>, key: string)
    requires IsLru(es, uses)
    ensures IsLru(Delete(es, key), uses + [Drop(key)])
    ensures forall x :: x in Delete(es, key) ==> x in es
  {
    hide IsLru;
    DropKeepsLru(es, uses, key);
  }

  lemma UnusedParts(s: State, t: State)
    requires s.inFlight == t.inFlight && s.mints == t.mints
    ensures InFlightMatches(s) <==> InFlightMatches(t)
  {
  }

  lemma GetKeepsInv(s: State, key: string, maxAge: int, now: int)
    requires Inv(s)
    ensures Inv(Get(s, key, maxAge, now).0)
    ensures var cached := Get(s, key, maxAge, now).1;
            cached.Some? ==> cached.value in s.entries && cached.value.key == key && IsFresh(cached.value, maxAge, now)
  {
    hide Delete, InOrder, CacheKey, InFlightMatches, IsFresh;
    DropKeepsInv(s, key);
    if IndexOf(s.entries, key).Some? {
      var e := s.entries[IndexOf(s.entries, key).value];
      StoreKeepsLru(s.entries, s.uses, e);
      FoundIsStored(s.entries, s.uses, e);
      UnusedParts(s, Get(s, key, maxAge, now).0);
    }
  }

  /** Putting back a key that was there cannot make the cache too large. */
  lemma FoundIsStored(es: seq<Entry>, uses: seq<Use>, e: Entry)
    requires IsLru(es, uses) && IndexOf(es, e.key).Some?
    ensures Store(es, e) == Delete(es, e.key) + [e]
  {
  }

  lemma JoinOrStartKeepsInv(s: State, a: Ask)
    requires Inv(s)
    ensures Inv(JoinOrStart(s, a).0)
  {
    hide IsLru, CacheKey;
  }

  lemma AnswerKeepsInv(s: State, m: nat, expiresAt: Option<int>, now: int)
    requires Inv(s) && m < |s.mints| && s.mints[m].phase == Open
    ensures Inv(Answer(s, m, expiresAt, now))
  {
    hide IsLru, CacheKey, Store;
    if expiresAt.Some? {
      StoreKeepsLru(s.entries, s.uses, Entry(CacheKey(s.mints[m].scope), m, expiresAt.value, now));
    }
  }

  lemma StepKeepsInv(s: State, e: Event)
    requires Inv(s) && Enabled(s, e)
    ensures Inv(Do(s, e))
  {
    match e
    case Asked(a) => CreateKeepsInv(s, a);
    case MintAnswered(m, expiresAt, now) => AnswerKeepsInv(s, m, expiresAt, now);
    case MintRefused(m) => PhaseKeepsInv(s, m);
    case MintSettled(m) => PhaseKeepsInv(s, m);
  }

  lemma PhaseKeepsInv(s: State, m: nat)
    requires Inv(s) && m < |s.mints| && s.mints[m].phase != Settled
    ensures Inv(SetPhase(s, m, Answered)) && Inv(Settle(s, m))
  {
    hide IsLru, CacheKey;
  }

  lemma CreateKeepsInv(s: State, a: Ask)
    requires Inv(s)
    ensures Inv(Create(s, a).0)
  {
    hide Inv, Forget, Get, JoinOrStart, MaxAge, CacheKey;
    var key := CacheKey(a.scope);
    if a.useCache && a.forceRefresh {
      DropKeepsInv(s, key);
      JoinOrStartKeepsInv(Forget(s, key), a);
    } else if a.useCache {
      GetKeepsInv(s, key, MaxAge(a), a.now);
      JoinOrStartKeepsInv(Get(s, key, MaxAge(a), a.now).0, a);
    } else {
      JoinOrStartKeepsInv(s, a);
    }
  }

  ghost predicate Possible(s: State, run: seq<Event>)
    decreases |run|
  {
    run != [] ==> Possible(s, run[..|run| - 1]) && Enabled(After(s, run[..|run| - 1]), run[|run| - 1])
  }

  ghost function After(s: State, run: seq<Event>): State
    decreases |run|
  {
    if run == [] then s
    else
      var before := After(s, run[..|run| - 1]);
      if Enabled(before, run[|run| - 1]) then Do(before, run[|run| - 1]) else before
  }

  lemma {:induction false} RunKeepsInv(run: seq<Event>)
    requires Possible(INITIAL, run)
    ensures Inv(After(INITIAL, run))
  {
    if run == [] {
      assert forall k :: LastTouch([], k).None?;
    } else {
      RunKeepsInv(run[..|run| - 1]);
      StepKeepsInv(After(INITIAL, run[..|run| - 1]), run[|run| - 1]);
    }
  }

  /* ----- what callers rely on ----- */

  lemma OutcomeHasKey(s: State, a: Ask)
    requires Inv(s)
    ensures var (next, outcome) := Create(s, a);
            outcome.mint < |next.mints| && CacheKey(next.mints[outcome.mint].scope) == CacheKey(a.scope)
  {
    hide IsLru, Delete, CacheKey, IsFresh;
    GetKeepsInv(s, CacheKey(a.scope), MaxAge(a), a.now);
  }

  /**
    Whoever asks is given a token requested for the same app, installation and
    set of repositories; one from the cache is some minutes from expiry and not
    older than the caller allows.
   */
  lemma TokenIsForTheScope(run: seq<Event>, a: Ask)
    requires Possible(INITIAL, run)
    ensures var (next, outcome) := Create(After(INITIAL, run), a);
            && outcome.mint < |next.mints| && SameScope(next.mints[outcome.mint].scope, a.scope)
            && (outcome.Cached? ==> a.useCache && !a.forceRefresh && exists e ::
                  e in After(INITIAL, run).entries && e.mint == outcome.mint && IsFresh(e, MaxAge(a), a.now))
  {
    hide IsLru, Delete, CacheKey;
    var s := After(INITIAL, run);
    RunKeepsInv(run);
    var (next, outcome) := Create(s, a);
    GetKeepsInv(s, CacheKey(a.scope), MaxAge(a), a.now);
    OutcomeHasKey(s, a);
    KeyEqualIff(next.mints[outcome.mint].scope, a.scope);
  }

  /** The token of a scope, more than five minutes from its expiry and younger than the caller allows. */
  predicate IsUsable(e: Entry, a: Ask) {
    && e.key == CacheKey(a.scope)
    && e.expiresAt - a.now > 300_000
    && a.now - e.storedAt < (if a.maxAge.None? then 900_000 else if a.maxAge.value < 0 then 0 else a.maxAge.value)
  }

  /** A caller that uses the cache is given a cached token exactly when there is a usable one, and is given that. */
  lemma CachedIff(run: seq<Event>, a: Ask)
    requires Possible(INITIAL, run) && a.useCache && !a.forceRefresh
    ensures var s := After(INITIAL, run);
            && (Create(s, a).1.Cached? <==> exists e :: e in s.entries && IsUsable(e, a))
            && (forall e :: e in s.entries && IsUsable(e, a) ==> Create(s, a).1 == Cached(e.mint))
  {
    RunKeepsInv(run);
    InvIsLru(After(INITIAL, run));
    CachedFromIff(After(INITIAL, run), a);
  }

  lemma CachedFromIff(s: State, a: Ask)
    requires Distinct(s.entries) && a.useCache && !a.forceRefresh
    ensures Create(s, a).1.Cached? <==> exists e :: e in s.entries && IsUsable(e, a)
    ensures forall e :: e in s.entries && IsUsable(e, a) ==> Create(s, a).1 == Cached(e.mint)
  {
    hide CacheKey, Delete, Distinct;
    var key := CacheKey(a.scope);
    var found := IndexOf(s.entries, key);
    forall e | e in s.entries && e.key == key ensures found.Some? && s.entries[found.value] == e {
      OneEntryPerKey(s.entries, key, e);
    }
    assert found.Some? ==> s.entries[found.value] in s.entries;
  }

  lemma OneEntryPerKey(es: seq<Entry>, key: string, e: Entry)
    requires Distinct(es) && e in es && e.key == key
    ensures IndexOf(es, key).Some? && es[IndexOf(es, key).value] == e
  {
    var i :| 0 <= i < |es| && es[i] == e;
  }

  /** One that does not, or that forces a refresh, is never given a cached token. */
  lemma NotCachedOtherwise(s: State, a: Ask)
    requires !a.useCache || a.forceRefresh
    ensures !Create(s, a).1.Cached?
  {
  }

  /** A request of its own is made exactly when no token is given and none is under way for the scope. */
  lemma StartsIff(run: seq<Event>, a: Ask)
    requires Possible(INITIAL, run)
    ensures var s := After(INITIAL, run);
            Create(s, a).1.Started? <==>
              && !Create(s, a).1.Cached?
              && forall m :: 0 <= m < |s.mints| && SameScope(s.mints[m].scope, a.scope) ==> s.mints[m].phase == Settled
  {
    var s := After(INITIAL, run);
    RunKeepsInv(run);
    forall m | 0 <= m < |s.mints|
      ensures SameScope(s.mints[m].scope, a.scope) <==> CacheKey(s.mints[m].scope) == CacheKey(a.scope)
    {
      KeyEqualIff(s.mints[m].scope, a.scope);
    }
    hide IsLru, CacheKey, SameScope;
    InFlightIff(s, CacheKey(a.scope));
  }

  lemma InFlightIff(s: State, key: string)
    requires InFlightMatches(s)
    ensures key in s.inFlight <==>
              exists m :: 0 <= m < |s.mints| && CacheKey(s.mints[m].scope) == key && s.mints[m].phase != Settled
  {
    hide CacheKey;
  }

  /** An answer cached is what the next caller gets, as long as it is usable. */
  lemma AnsweredIsReused(run: seq<Event>, m: nat, expiresAt: int, now: int, a: Ask)
    requires Possible(INITIAL, run + [MintAnswered(m, Some(expiresAt), now)])
    requires var s := After(INITIAL, run); Enabled(s, MintAnswered(m, Some(expiresAt), now)) && s.mints[m].caching
    requires SameScope(After(INITIAL, run).mints[m].scope, a.scope)
    requires a.useCache && !a.forceRefresh && a.maxAge.None? && expiresAt - a.now > 300_000 && a.now - now < 900_000
    ensures Create(After(INITIAL, run + [MintAnswered(m, Some(expiresAt), now)]), a).1 == Cached(m)
  {
    var event := MintAnswered(m, Some(expiresAt), now);
    var more := run + [event];
    var s := After(INITIAL, run);
    assert more[..|more| - 1] == run;
    KeyEqualIff(s.mints[m].scope, a.scope);
    var e := Entry(CacheKey(a.scope), m, expiresAt, now);
    CachedIff(more, a);
    assert After(INITIAL, more) == Do(s, event);
    var es := Store(s.entries, e);
    assert es[|es| - 1] == e;
    assert IsUsable(e, a);
  }

  /** At any time at most one request is under way for a scope. */
  lemma OneMintPerScope(run: seq<Event>, m: nat, n: nat)
    requires Possible(INITIAL, run)
    requires var mints := After(INITIAL, run).mints;
             m < |mints| && n < |mints| && mints[m].phase == Open && mints[n].phase == Open
             && SameScope(mints[m].scope, mints[n].scope)
    ensures m == n
  {
    RunKeepsInv(run);
    var mints := After(INITIAL, run).mints;
    KeyEqualIff(mints[m].scope, mints[n].scope);
  }

  /** A scope stays cached until it is found stale or refreshed, or five hundred others have been used since. */
  lemma StaysCached(run: seq<Event>, key: string)
    requires Possible(INITIAL, run)
    requires var s := After(INITIAL, run);
             LastTouch(s.uses, key).Some? && |TouchedAfter(s.uses, LastTouch(s.uses, key).value)| < MAX_ENTRIES
    ensures Has(After(INITIAL, run).entries, key) && |After(INITIAL, run).entries| <= MAX_ENTRIES
  {
    RunKeepsInv(run);
  }

  /** What is left for a promise to do: to be answered, if it is not yet, and to leave the map in flight. */
  function Finished(s: State, m: nat, expiresAt: Option<int>, now: int): State
    requires m < |s.mints|
  {
    Settle(if s.mints[m].phase == Open then Answer(s, m, expiresAt, now) else s, m)
  }

  /** A request for the key, if there is one in flight, is not answered yet and was made for the cache. */
  predicate LeavesToken(s: State, key: string) {
    key in s.inFlight && s.inFlight[key] < |s.mints| ==>
      s.mints[s.inFlight[key]].phase == Open && s.mints[s.inFlight[key]].caching
  }

  /**
    A forced refresh forgets the cached token. Once the promise it waits for is
    done, a token is cached again exactly when that has an expiry and no request
    without the cache, or already answered, was in flight for the scope.
   */
  lemma ForcedRefreshReplacesIff(s: State, a: Ask, expiresAt: Option<int>, now: int)
    requires Inv(s) && a.useCache && a.forceRefresh
    ensures var (next, outcome) := Create(s, a);
            && outcome.mint < |next.mints|
            && (expiresAt.Some? && LeavesToken(s, CacheKey(a.scope)) <==>
                  Has(Finished(next, outcome.mint, expiresAt, now).entries, CacheKey(a.scope)))
  {
    hide Inv, Create, CacheKey, Finished, Has, LeavesToken;
    OutcomeHasKey(s, a);
    RefreshedPromise(s, a);
    var (next, outcome) := Create(s, a);
    FinishedHasIff(next, outcome.mint, expiresAt, now);
  }

  /** The cached token is gone, and the promise waited for is a new one or the one in flight. */
  lemma RefreshedPromise(s: State, a: Ask)
    requires Inv(s) && a.useCache && a.forceRefresh
    ensures var (next, outcome) := Create(s, a);
            && outcome.mint < |next.mints| && !Has(next.entries, CacheKey(a.scope))
            && (LeavesToken(s, CacheKey(a.scope)) <==>
                  next.mints[outcome.mint].phase == Open && next.mints[outcome.mint].caching)
  {
    var key := CacheKey(a.scope);
    if key in s.inFlight { InFlightIsKnown(s, key); }
    hide Inv, IsLru, CacheKey, Distinct, Delete, IndexOf;
    InvIsLru(s);
    DeleteKeeps(s.entries, key);
  }

  lemma FinishedHasIff(s: State, m: nat, expiresAt: Option<int>, now: int)
    requires m < |s.mints| && !Has(s.entries, CacheKey(s.mints[m].scope))
    ensures Has(Finished(s, m, expiresAt, now).entries, CacheKey(s.mints[m].scope)) <==>
              expiresAt.Some? && s.mints[m].phase == Open && s.mints[m].caching
  {
    hide CacheKey, Delete;
    var key := CacheKey(s.mints[m].scope);
    if expiresAt.Some? {
      var es := Store(s.entries, Entry(key, m, expiresAt.value, now));
      assert es[|es| - 1] == Entry(key, m, expiresAt.value, now);
    }
  }

  lemma InFlightIsKnown(s: State, key: string)
    requires Inv(s) && key in s.inFlight
    ensures s.inFlight[key] < |s.mints| && s.mints[s.inFlight[key]].phase != Settled
  {
  }

  /** So one that joins a request made without the cache leaves nothing cached. */
  lemma ForcedRefreshMayCacheNothing(scope: Scope, expiresAt: int)
    ensures var plain := Asked(Ask(scope, false, false, None, 0));
            var forced := Ask(scope, true, true, None, 0);
            var s := Do(INITIAL, plain);
            && Create(s, forced).1 == Joined(0)
            && Do(Create(s, forced).0, MintAnswered(0, Some(expiresAt), 0)).entries == []
  {
  }

  /** Nor does one that comes between the answer of a request made for the cache and its leaving the map. */
  lemma LateForcedRefreshCachesNothing(scope: Scope, expiresAt: int)
    ensures var forced := Ask(scope, true, true, None, 0);
            var s := Do(Do(INITIAL, Asked(Ask(scope, true, false, None, 0))), MintAnswered(0, Some(expiresAt), 0));
            && s.entries == [Entry(CacheKey(scope), 0, expiresAt, 0)]
            && Create(s, forced).1 == Joined(0)
            && Do(Create(s, forced).0, MintSettled(0)).entries == []
  {
    hide CacheKey;
  }

  /* ----- the service ----- */

  class TokenService {
    var entries: seq<Entry>
    var inFlight: map<string, nat>
    var mints: seq<Mint>
    ghost var uses: seq<Use>

    ghost function View(): State
      reads this
    {
      State(entries, inFlight, mints, uses)
    }

    ghost predicate Valid()
      reads this
    {
      Inv(View())
    }

    constructor ()
      ensures View() == INITIAL && Valid()
    {
      entries, inFlight, mints, uses := [], map[], [], [];
      new;
      assert forall k :: LastTouch([], k).None?;
    }

    method GetCached(key: string, maxAge: int, now: int) returns (cached: Option<Entry>)
      requires Valid()
      modifies this`entries, this`uses
      ensures Valid() && (View(), cached) == Get(old(View()), key, maxAge, now)
    {
      hide Inv, Delete;
      GetKeepsInv(View(), key, maxAge, now);
      var i := IndexOf(entries, key);
      if i.None? || entries[i.value].expiresAt - REFRESH_BUFFER <= now || entries[i.value].storedAt + maxAge <= now {
        entries, uses := Delete(entries, key), uses + [Drop(key)];
        return None;
      }
      cached := Some(entries[i.value]);
      entries := Delete(entries, key);
      entries, uses := entries + [cached.value], uses + [Touch(key)];
    }

    method CacheToken(key: string, mint: nat, expiresAt: Option<int>, now: int)
      requires IsLru(entries, uses)
      modifies this`entries, this`uses
      ensures expiresAt.None? ==> entries == old(entries) && uses == old(uses)
      ensures expiresAt.Some? ==>
                && entries == Store(old(entries), Entry(key, mint, expiresAt.value, now))
                && uses == old(uses) + [Touch(key)]
    {
      if expiresAt.None? { return; }
      var e := Entry(key, mint, expiresAt.value, now);
      hide Delete, IsLru, Distinct;
      StoreBound(entries, uses, e);
      entries := Delete(entries, key);
      entries, uses := entries + [e], uses + [Touch(key)];
      ghost var all := entries;
      while |entries| > MAX_ENTRIES
        invariant entries == all || (|all| > MAX_ENTRIES && entries == all[1..])
        invariant |all| <= MAX_ENTRIES + 1 && uses == old(uses) + [Touch(key)]
        decreases |entries|
      {
        RemoveOldest(entries);
        entries := Delete(entries, entries[0].key);
      }
    }

    method CreateToken(a: Ask) returns (outcome: Outcome)
      requires Valid()
      modifies this
      ensures Valid() && (View(), outcome) == Create(old(View()), a)
    {
      hide Inv, Delete, CacheKey;
      StepKeepsInv(View(), Asked(a));
      var key := CacheKey(a.scope);
      DropKeepsInv(View(), key);
      if a.useCache && a.forceRefresh {
        entries, uses := Delete(entries, key), uses + [Drop(key)];
      }
      if a.useCache && !a.forceRefresh {
        var cached := GetCached(key, MaxAge(a), a.now);
        if cached.Some? { return Cached(cached.value.mint); }
      }
      if key in inFlight { return Joined(inFlight[key]); }
      outcome := Started(|mints|);
      inFlight, mints := inFlight[key := |mints|], mints + [Mint(a.scope, a.useCache, Open)];
    }

    method OnAnswer(m: nat, expiresAt: Option<int>, now: int)
      requires Valid() && m < |mints| && mints[m].phase == Open
      modifies this
      ensures Valid() && View() == Answer(old(View()), m, expiresAt, now)
    {
      hide Inv, IsLru, Store, CacheKey, Distinct;
      InvIsLru(View());
      StepKeepsInv(View(), MintAnswered(m, expiresAt, now));
      if mints[m].caching {
        CacheToken(CacheKey(mints[m].scope), m, expiresAt, now);
      }
      mints := mints[m := mints[m].(phase := Answered)];
    }

    /** A request that failed leaves the cache alone. */
    method OnRefusal(m: nat)
      requires Valid() && m < |mints| && mints[m].phase == Open
      modifies this`mints
      ensures Valid() && View() == SetPhase(old(View()), m, Answered)
    {
      StepKeepsInv(View(), MintRefused(m));
      mints := mints[m := mints[m].(phase := Answered)];
    }

    method OnSettled(m: nat)
      requires Valid() && m < |mints| && mints[m].phase == Answered
      modifies this`mints, this`inFlight
      ensures Valid() && View() == Settle(old(View()), m)
    {
      StepKeepsInv(View(), MintSettled(m));
      inFlight := inFlight - {CacheKey(mints[m].scope)};
      mints := mints[m := mints[m].(phase := Settled)];
    }
  }

  lemma StoreBound(es: seq<Entry>, uses: seq<Use>, e: Entry)
    requires IsLru(es, uses)
    ensures Distinct(Delete(es, e.key) + [e]) && |Delete(es, e.key)| <= MAX_ENTRIES
  {
    hide Delete, Before, LastTouch, TouchedAfter;
    DeleteKeeps(es, e.key);
  }

  lemma RemoveOldest(es: seq<Entry>)
    requires es != [] && Distinct(es)
    ensures Delete(es, es[0].key) == es[1..]
  {
  }
}

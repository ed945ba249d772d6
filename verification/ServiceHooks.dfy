/** Reconciliation as a whole: what ensuring, removing and doing both leave in the store. */
module ServiceHooks {
  import opened Prelude
  import opened Text
  import opened HookModel

  /* ----- ensuring ----- */

  /** A hook some repository, or its project, is to have. */
  predicate Wanted(repos: seq<Repository>, h: Hook) {
    IsScoped(repos, h) || IsUnscoped(Projects(repos), h)
  }

  /** Each repository once. */
  predicate AreRepositories(repos: seq<Repository>) {
    forall i, j :: 0 <= i < j < |repos| ==> repos[i] != repos[j]
  }

  predicate IsScoped(repos: seq<Repository>, h: Hook) {
    h.what in REPOSITORY_EVENTS && Repository(h.repository, h.project) in repos
  }

  predicate IsUnscoped(ps: seq<string>, h: Hook) {
    h.repository == "" && h.what in PROJECT_EVENTS && h.project in ps
  }

  lemma DistinctConcat(a: seq<Hook>, b: seq<Hook>)
    requires AreDistinct(a) && AreDistinct(b) && forall h :: h in a ==> h !in b
    ensures AreDistinct(a + b)
  {
    hide Known;
    var c := a + b;
    assert forall i :: 0 <= i < |a| ==> c[i] == a[i] && c[i] in a;
    assert forall i :: |a| <= i < |c| ==> c[i] == b[i - |a|] && c[i] in b;
  }

  lemma EventsAreDistinct()
    ensures forall i, j :: 0 <= i < j < |REPOSITORY_EVENTS| ==> REPOSITORY_EVENTS[i] != REPOSITORY_EVENTS[j]
    ensures forall i, j :: 0 <= i < j < |PROJECT_EVENTS| ==> PROJECT_EVENTS[i] != PROJECT_EVENTS[j]
  {
  }

  lemma OneRepository(r: Repository)
    ensures AreDistinct(RepositoryHooks(r))
    ensures forall h :: h in RepositoryHooks(r) <==>
              h.what in REPOSITORY_EVENTS && r == Repository(h.repository, h.project)
  {
    EventsAreDistinct();
    var hs := RepositoryHooks(r);
    forall h: Hook | h.what in REPOSITORY_EVENTS && r == Repository(h.repository, h.project) ensures h in hs {
      var i :| 0 <= i < |REPOSITORY_EVENTS| && REPOSITORY_EVENTS[i] == h.what;
      assert hs[i] == h;
    }
  }

  lemma OneProject(p: string)
    ensures AreDistinct(ProjectHooks(p))
    ensures forall h :: h in ProjectHooks(p) <==> h.repository == "" && h.what in PROJECT_EVENTS && h.project == p
  {
    EventsAreDistinct();
    var hs := ProjectHooks(p);
    forall h: Hook | h.repository == "" && h.what in PROJECT_EVENTS && h.project == p ensures h in hs {
      var i :| 0 <= i < |PROJECT_EVENTS| && PROJECT_EVENTS[i] == h.what;
      assert hs[i] == h;
    }
  }

  lemma {:induction false} ScopedHooks(repos: seq<Repository>)
    requires AreRepositories(repos)
    ensures AreDistinct(AllRepositoryHooks(repos))
    ensures forall h :: h in AllRepositoryHooks(repos) <==> IsScoped(repos, h)
  {
    hide AreDistinct, RepositoryHooks;
    if repos == [] {
      assert AreDistinct([]) by { DistinctEmpty(); }
    } else {
      var front, r := repos[..|repos| - 1], repos[|repos| - 1];
      assert repos == front + [r];
      ScopedHooks(front);
      OneRepository(r);
      assert r !in front;
      DistinctConcat(AllRepositoryHooks(front), RepositoryHooks(r));
    }
  }

  lemma DistinctEmpty()
    ensures AreDistinct([])
  {
  }

  lemma {:induction false} UnscopedHooks(ps: seq<string>)
    requires forall i, j :: 0 <= i < j < |ps| ==> ps[i] != ps[j]
    ensures AreDistinct(AllProjectHooks(ps))
    ensures forall h :: h in AllProjectHooks(ps) <==> IsUnscoped(ps, h)
  {
    hide AreDistinct, ProjectHooks;
    if ps == [] {
      assert AreDistinct([]) by { DistinctEmpty(); }
    } else {
      var front, p := ps[..|ps| - 1], ps[|ps| - 1];
      assert ps == front + [p];
      UnscopedHooks(front);
      OneProject(p);
      assert p !in front;
      DistinctConcat(AllProjectHooks(front), ProjectHooks(p));
    }
  }

  /** What ensuring does to a store: every wanted hook is settled, nothing else is touched. */
  ghost predicate Ensured(e: Endpoint, s: Store, t: Store, repos: seq<Repository>) {
    && WellFormed(t)
    && (forall h :: Wanted(repos, h) ==> Settled(e, t, h))
    && ((forall h :: Wanted(repos, h) ==> Settled(e, s, h)) ==> t == s)
    && (forall h :: Known(h) && Single(e, s.subs, h) ==> Single(e, t.subs, h))
    && (forall k :: Known(k) && !Wanted(repos, k) ==> SameFor(e, s, t, k))
    && (forall x :: x in s.subs && (forall h :: Wanted(repos, h) ==> !Matches(e, x.body, h)) ==> x in t.subs)
    && (forall x :: x in t.subs ==> x in s.subs || exists h :: Wanted(repos, h) && x.body == Build(e, h))
  }

  lemma TwoPhases(e: Endpoint, s: Store, t: Store, u: Store, a: seq<Hook>, b: seq<Hook>)
    requires AllWritten(e, s, t, a) && AllWritten(e, t, u, b)
    requires forall h :: h in a + b ==> Known(h)
    requires forall h :: h in a ==> h !in b
    ensures AllWritten(e, s, u, a + b)
  {
    hide Settled, Single, Matches, Build, Known, FoundId, WellFormed;
    assert forall h :: h in a + b <==> h in a || h in b;
    assert forall h :: h in a ==> SameFor(e, t, u, h);
    assert forall h :: h in b ==> SameFor(e, s, t, h);
    if forall h :: h in a + b ==> Settled(e, s, h) {
      assert t == s;
    }
  }

  lemma WantedHooks(repos: seq<Repository>)
    requires AreRepositories(repos)
    ensures var a, b := AllRepositoryHooks(repos), AllProjectHooks(Projects(repos));
            && AreDistinct(a) && AreDistinct(b)
            && (forall h :: h in a + b <==> Wanted(repos, h))
            && (forall h :: h in a + b ==> Known(h))
            && (forall h :: h in a ==> h !in b)
  {
    var a, b := AllRepositoryHooks(repos), AllProjectHooks(Projects(repos));
    ScopedHooks(repos);
    UnscopedHooks(Projects(repos));
    assert forall h :: h in a + b <==> h in a || h in b;
  }

  lemma WrittenIsEnsured(e: Endpoint, s: Store, t: Store, repos: seq<Repository>, hooks: seq<Hook>)
    requires AllWritten(e, s, t, hooks) && forall h :: h in hooks <==> Wanted(repos, h)
    ensures Ensured(e, s, t, repos)
  {
    hide Wanted, Settled, Single, Matches, Build, Known, FoundId, WellFormed;
    assert forall k :: Known(k) && k !in hooks ==> SameFor(e, s, t, k);
  }

  /** Whatever the store held, ensuring distinct repositories settles every hook they want. */
  lemma EnsureSettles(e: Endpoint, s: Store, repos: seq<Repository>)
    requires WellFormed(s) && AreRepositories(repos)
    ensures Ensured(e, s, Ensure(e, s, repos).0, repos)
  {
    hide WellFormed, AreDistinct, Wanted, Known, Ensured, AllWritten, AllRepositoryHooks, AllProjectHooks;
    hide Projects, UpsertAll;
    var a, b := AllRepositoryHooks(repos), AllProjectHooks(Projects(repos));
    WantedHooks(repos);
    AllAreWritten(e, s, s.subs, a);
    var t := UpsertAll(e, s, s.subs, a).0;
    assert WellFormed(t) by { WrittenIsWellFormed(e, s, t, a); }
    AllAreWritten(e, t, t.subs, b);
    var u := UpsertAll(e, t, t.subs, b).0;
    TwoPhases(e, s, t, u, a, b);
    WrittenIsEnsured(e, s, u, repos, a + b);
  }

  lemma WrittenIsWellFormed(e: Endpoint, s: Store, t: Store, hooks: seq<Hook>)
    requires AllWritten(e, s, t, hooks)
    ensures WellFormed(t)
  {
  }

  /** Whatever repositories are given, repeated or not, all their hooks end settled. */
  lemma EnsureSettlesAll(e: Endpoint, s: Store, repos: seq<Repository>)
    requires WellFormed(s)
    ensures var t := Ensure(e, s, repos).0;
            && WellFormed(t)
            && forall h :: h in AllRepositoryHooks(repos) || h in AllProjectHooks(Projects(repos)) ==> Settled(e, t, h)
  {
    var a, b := AllRepositoryHooks(repos), AllProjectHooks(Projects(repos));
    RepositoryHooksAreKnown(repos);
    UnscopedHooks(Projects(repos));
    hide WellFormed, Settled, Known, AllRepositoryHooks, AllProjectHooks, Projects, UpsertAll, AreDistinct, AllWritten;
    var t := UpsertAll(e, s, s.subs, a).0;
    StaysWellFormed(e, s, a);
    forall h | h in a ensures Settled(e, t, h) {
      AllAreSettled(e, s, a, h);
    }
    AllAreWritten(e, t, t.subs, b);
    KeepsSettled(e, t, UpsertAll(e, t, t.subs, b).0, a, b);
  }

  lemma StaysWellFormed(e: Endpoint, s: Store, hooks: seq<Hook>)
    requires WellFormed(s) && forall h :: h in hooks ==> Known(h)
    ensures WellFormed(UpsertAll(e, s, s.subs, hooks).0)
  {
    UpsertAllAppendsMissing(e, s, hooks);
  }

  lemma KeepsSettled(e: Endpoint, s: Store, t: Store, a: seq<Hook>, b: seq<Hook>)
    requires AllWritten(e, s, t, b) && forall h :: h in a ==> Known(h) && Settled(e, s, h)
    ensures WellFormed(t) && forall h :: h in a || h in b ==> Settled(e, t, h)
  {
    hide Settled, Known, WellFormed;
    assert forall h :: h in a && h !in b ==> SameFor(e, s, t, h);
  }

  lemma {:induction false} RepositoryHooksAreKnown(repos: seq<Repository>)
    ensures forall h :: h in AllRepositoryHooks(repos) ==> Known(h)
  {
    if repos != [] {
      RepositoryHooksAreKnown(repos[..|repos| - 1]);
      OneRepository(repos[|repos| - 1]);
    }
  }

  /** Ensuring again changes nothing and creates nothing, whatever repositories are given. */
  lemma EnsureIsIdempotent(e: Endpoint, s: Store, repos: seq<Repository>)
    requires WellFormed(s)
    ensures var t := Ensure(e, s, repos).0;
            && Ensure(e, t, repos).0 == t
            && true !in Ensure(e, t, repos).1 && true !in Ensure(e, t, repos).2
  {
    EnsureSettlesAll(e, s, repos);
    var t := Ensure(e, s, repos).0;
    SettledStays(e, t, AllRepositoryHooks(repos));
    SettledStays(e, t, AllProjectHooks(Projects(repos)));
  }

  lemma {:induction false} SettledStays(e: Endpoint, t: Store, hooks: seq<Hook>)
    requires WellFormed(t)
    requires forall h :: h in hooks ==> Settled(e, t, h)
    ensures UpsertAll(e, t, t.subs, hooks).0 == t && true !in UpsertAll(e, t, t.subs, hooks).1
  {
    if hooks != [] {
      hide Find, Build;
      var n := |hooks| - 1;
      assert hooks[n] in hooks;
      SettledStays(e, t, hooks[..n]);
      assert Upsert(e, t, t.subs, hooks[n]).0.subs == t.subs;
    }
  }

  lemma {:induction false} HookTimes(repos: seq<Repository>, h: Hook)
    ensures Times(AllRepositoryHooks(repos), h) ==
              if h.what in REPOSITORY_EVENTS then Times(repos, Repository(h.repository, h.project)) else 0
    ensures forall k :: k in AllRepositoryHooks(repos) ==> Known(k)
  {
    if repos != [] {
      hide RepositoryHooks, AreDistinct;
      var n := |repos| - 1;
      HookTimes(repos[..n], h);
      OneRepository(repos[n]);
      TimesConcat(AllRepositoryHooks(repos[..n]), RepositoryHooks(repos[n]), h);
      OneRepositoryTimes(repos[n], h);
    }
  }

  lemma OneRepositoryTimes(r: Repository, h: Hook)
    ensures Times(RepositoryHooks(r), h) ==
              if h.what in REPOSITORY_EVENTS && r == Repository(h.repository, h.project) then 1 else 0
  {
    OneRepository(r);
    TimesIsOnceIff(RepositoryHooks(r), h);
  }

  /**
    For any repositories, repeated or not, and any store: a hook is single after
    an ensure exactly when it was before and, if it is one of a repository and was
    missing, that repository is given once at most. Project hooks are never doubled.
   */
  lemma EnsureSingleIff(e: Endpoint, s: Store, repos: seq<Repository>, h: Hook)
    requires WellFormed(s) && Known(h)
    ensures Single(e, Ensure(e, s, repos).0.subs, h) <==>
              && Single(e, s.subs, h)
              && (Find(e, s.subs, h).None? && h.what in REPOSITORY_EVENTS ==>
                    Times(repos, Repository(h.repository, h.project)) <= 1)
  {
    hide WellFormed, Single, Find, Known, Times, AllRepositoryHooks, AllProjectHooks, Projects, UpsertAll, AreDistinct;
    var a, b := AllRepositoryHooks(repos), AllProjectHooks(Projects(repos));
    HookTimes(repos, h);
    SingleAfterIff(e, s, a, h);
    var t := UpsertAll(e, s, s.subs, a).0;
    UnscopedHooks(Projects(repos));
    ProjectHooksAreSingle(b, h);
    SingleAfterIff(e, t, b, h);
  }

  lemma ProjectHooksAreSingle(hooks: seq<Hook>, h: Hook)
    requires AreDistinct(hooks)
    ensures Times(hooks, h) <= 1 && forall k :: k in hooks ==> Known(k)
  {
    TimesIsOnceIff(hooks, h);
  }

  /** So the listing does not show what is created under it: a repository given twice gets its missing hooks twice. */
  lemma RepeatedRepositoryRepeatsHooks(e: Endpoint, s: Store, repos: seq<Repository>, h: Hook)
    requires WellFormed(s) && h.what in REPOSITORY_EVENTS && Find(e, s.subs, h).None?
    requires Times(repos, Repository(h.repository, h.project)) > 1
    ensures !Single(e, Ensure(e, s, repos).0.subs, h)
  {
    EnsureSingleIff(e, s, repos, h);
  }

  /* ----- removing ----- */

  /** An address of this deployment: the webhook's, with or without a query. */
  predicate IsOurUrl(e: Endpoint, url: string) {
    url != "" && (url == e.url || e.url + "?" <= url)
  }

  predicate IsProjectEvent(event: string) {
    event in {"workitem.commented", "build.complete"}
  }

  predicate IsRepositoryHook(e: Endpoint, b: Body, r: Repository) {
    && IsOurs(b) && OrBlank(Input(b, "repository")) == r.id && OrBlank(Input(b, "projectId")) == r.project
    && IsOurUrl(e, b.url)
  }

  predicate IsProjectHook(e: Endpoint, b: Body, project: string) {
    && IsOurs(b) && IsProjectEvent(b.event) && OrBlank(Input(b, "repository")) == ""
    && OrBlank(Input(b, "projectId")) == project && IsOurUrl(e, b.url)
  }

  predicate IsRetained(project: string, retain: set<string>) {
    project in retain && !IsBlank(project)
  }

  /** The subscription goes when some repository's hooks are removed. */
  predicate Dropped(e: Endpoint, b: Body, repos: seq<Repository>, retain: set<string>) {
    exists r :: r in repos &&
      (IsRepositoryHook(e, b, r) || (!IsRetained(r.project, retain) && IsProjectHook(e, b, r.project)))
  }

  function Without(subs: seq<Subscription>, ids: set<nat>): (r: seq<Subscription>)
    ensures forall x :: x in r <==> x in subs && x.id !in ids
  {
    if subs == [] then []
    else
      var n := |subs| - 1;
      assert subs == subs[..n] + [subs[n]];
      if subs[n].id in ids then Without(subs[..n], ids) else Without(subs[..n], ids) + [subs[n]]
  }

  function DroppedIds(e: Endpoint, subs: seq<Subscription>, repos: seq<Repository>, retain: set<string>): set<nat> {
    set x | x in subs && Dropped(e, x.body, repos, retain) :: x.id
  }

  function Remove(e: Endpoint, s: Store, repos: seq<Repository>, retain: set<string>): Store {
    s.(subs := Without(s.subs, DroppedIds(e, s.subs, repos, retain)))
  }

  lemma LastIsNew(subs: seq<Subscription>, next: nat)
    requires WellFormed(Store(subs, next)) && subs != []
    ensures WellFormed(Store(subs[..|subs| - 1], next)) && subs[|subs| - 1].id < next
    ensures forall x :: x in subs[..|subs| - 1] ==> x.id != subs[|subs| - 1].id
  {
  }

  lemma OneMoreIsWellFormed(subs: seq<Subscription>, x: Subscription, next: nat)
    requires WellFormed(Store(subs, next)) && x.id < next && forall y :: y in subs ==> y.id != x.id
    ensures WellFormed(Store(subs + [x], next))
  {
  }

  lemma {:induction false} WithoutIsSubsequence(subs: seq<Subscription>, ids: set<nat>, next: nat)
    requires WellFormed(Store(subs, next))
    ensures WellFormed(Store(Without(subs, ids), next))
  {
    if subs != [] {
      hide WellFormed;
      var n := |subs| - 1;
      var front := subs[..n];
      LastIsNew(subs, next);
      WithoutIsSubsequence(front, ids, next);
      OneMoreIsWellFormed(Without(front, ids), subs[n], next);
    }
  }

  lemma {:induction false} NothingToDrop(subs: seq<Subscription>, ids: set<nat>)
    requires forall x :: x in subs ==> x.id !in ids
    ensures Without(subs, ids) == subs
  {
    if subs != [] {
      var n := |subs| - 1;
      assert subs == subs[..n] + [subs[n]];
      NothingToDrop(subs[..n], ids);
    }
  }

  /** Exactly the subscriptions to drop are gone. */
  lemma RemoveDropsExactly(e: Endpoint, s: Store, repos: seq<Repository>, retain: set<string>)
    requires WellFormed(s)
    ensures var t := Remove(e, s, repos, retain);
            WellFormed(t) && forall x :: x in t.subs <==> x in s.subs && !Dropped(e, x.body, repos, retain)
  {
    hide Dropped;
    var ids := DroppedIds(e, s.subs, repos, retain);
    WithoutIsSubsequence(s.subs, ids, s.next);
    forall x | x in s.subs && x.id in ids ensures Dropped(e, x.body, repos, retain) {
      var y :| y in s.subs && Dropped(e, y.body, repos, retain) && y.id == x.id;
      assert x == y;
    }
  }

  /**
    A hook as it was written, with a query or without, is recognized for removal
    with its own repository or, if it is a project's, with its project, and no other.
   */
  lemma WrittenHookIsDroppedIff(e: Endpoint, h: Hook, r: Repository)
    ensures IsRepositoryHook(e, Build(e, h), r) <==> r == Repository(h.repository, h.project)
    ensures IsProjectHook(e, Build(e, h), r.project) <==>
              h.repository == "" && IsProjectEvent(h.what.event) && r.project == h.project
  {
  }

  /* ----- removing, then ensuring ----- */

  function ProjectSet(repos: seq<Repository>): set<string> {
    set r | r in repos :: r.project
  }

  /**
    Hooks are removed from repositories no longer mapped, but not from a project
    still in use, and ensured for the mapped ones.
   */
  function Sync(e: Endpoint, s: Store, mapped: seq<Repository>, unmapped: seq<Repository>): Store {
    Ensure(e, Remove(e, s, unmapped, ProjectSet(mapped)), mapped).0
  }

  /** The callers' lists: distinct repositories with an id and a project, and none both mapped and not. */
  predicate AreScopes(mapped: seq<Repository>, unmapped: seq<Repository>) {
    && AreRepositories(mapped) && AreRepositories(unmapped)
    && (forall r :: r in mapped + unmapped ==> r.id != "")
    && (forall r :: r in mapped ==> r !in unmapped && !IsBlank(r.project))
  }

  /** Nothing written for a mapped repository is dropped for an unmapped one. */
  lemma MappedIsNotDropped(e: Endpoint, h: Hook, mapped: seq<Repository>, unmapped: seq<Repository>)
    requires AreScopes(mapped, unmapped) && Wanted(mapped, h)
    ensures !Dropped(e, Build(e, h), unmapped, ProjectSet(mapped))
  {
  }

  ghost predicate ServesAny(e: Endpoint, b: Body, repos: seq<Repository>) {
    exists h :: Wanted(repos, h) && Matches(e, b, h)
  }

  /** Neither to be dropped nor of use. */
  ghost predicate IsForeign(e: Endpoint, b: Body, mapped: seq<Repository>, unmapped: seq<Repository>) {
    !Dropped(e, b, unmapped, ProjectSet(mapped)) && !ServesAny(e, b, mapped)
  }

  /**
    After a sync every hook of a mapped repository and of its project is there
    and up to date; no subscription of the deployment is left for an unmapped
    repository or for a project out of use; what is none of these is untouched.
   */
  lemma SyncScopesHooks(e: Endpoint, s: Store, mapped: seq<Repository>, unmapped: seq<Repository>)
    requires WellFormed(s) && AreScopes(mapped, unmapped)
    ensures var t := Sync(e, s, mapped, unmapped);
            && WellFormed(t)
            && (forall h :: Wanted(mapped, h) ==> Settled(e, t, h))
            && (forall x :: x in t.subs ==> !Dropped(e, x.body, unmapped, ProjectSet(mapped)))
            && (forall x :: x in s.subs && IsForeign(e, x.body, mapped, unmapped) ==> x in t.subs)
  {
    hide Wanted, Settled, Single, Dropped, Build, Matches, WellFormed, Ensure, Remove, AreRepositories, SameFor;
    var r := Remove(e, s, unmapped, ProjectSet(mapped));
    var t := Sync(e, s, mapped, unmapped);
    RemoveDropsExactly(e, s, unmapped, ProjectSet(mapped));
    EnsureSettles(e, r, mapped);
    forall h | Wanted(mapped, h) ensures !Dropped(e, Build(e, h), unmapped, ProjectSet(mapped)) {
      MappedIsNotDropped(e, h, mapped, unmapped);
    }
  }

  /** The hook belongs to an unmapped repository, or to a project only unmapped ones are in. */
  predicate IsOutOfUse(h: Hook, mapped: seq<Repository>, unmapped: seq<Repository>) {
    if h.repository != "" then Repository(h.repository, h.project) in unmapped
    else h.what in PROJECT_EVENTS && h.project in ProjectSet(unmapped) - ProjectSet(mapped)
  }

  /** Hooks out of use are gone after a sync. */
  lemma OutOfUseIsGone(e: Endpoint, s: Store, mapped: seq<Repository>, unmapped: seq<Repository>, h: Hook)
    requires WellFormed(s) && AreScopes(mapped, unmapped)
    requires IsOutOfUse(h, mapped, unmapped)
    ensures Find(e, Sync(e, s, mapped, unmapped).subs, h) == None
  {
    SyncScopesHooks(e, s, mapped, unmapped);
    var found := Find(e, Sync(e, s, mapped, unmapped).subs, h);
    if found.Some? {
      MatchIsDropped(e, Sync(e, s, mapped, unmapped).subs[found.value].body, h, mapped, unmapped);
    }
  }

  lemma MatchIsDropped(e: Endpoint, b: Body, h: Hook, mapped: seq<Repository>, unmapped: seq<Repository>)
    requires Matches(e, b, h) && IsOutOfUse(h, mapped, unmapped)
    ensures Dropped(e, b, unmapped, ProjectSet(mapped))
  {
  }

  /** Doing it again changes nothing. */
  lemma SyncIsIdempotent(e: Endpoint, s: Store, mapped: seq<Repository>, unmapped: seq<Repository>)
    requires WellFormed(s) && AreScopes(mapped, unmapped)
    ensures Sync(e, Sync(e, s, mapped, unmapped), mapped, unmapped) == Sync(e, s, mapped, unmapped)
  {
    hide Wanted, Settled, Single, Dropped, Build, Matches, WellFormed, Ensure, AreRepositories, SameFor;
    var t := Sync(e, s, mapped, unmapped);
    SyncScopesHooks(e, s, mapped, unmapped);
    NothingToDrop(t.subs, DroppedIds(e, t.subs, unmapped, ProjectSet(mapped)));
    EnsureSettles(e, t, mapped);
  }
}

/** The remote store of subscriptions, and the client that reconciles it. */
module HookService {
  import opened HookModel
  import opened ServiceHooks

  /** A repository's hooks count as created when one of its five was. */
  function Statuses(created: seq<bool>, n: nat): seq<bool>
    requires |created| == 5 * n
  {
    seq(n, i requires 0 <= i < n => true in created[5 * i..5 * i + 5])
  }

  lemma {:induction false} UpsertAllAppends(
    e: Endpoint, s: Store, listing: seq<Subscription>, a: seq<Hook>, b: seq<Hook>)
    ensures var (t, created) := UpsertAll(e, s, listing, a);
            var (u, more) := UpsertAll(e, t, listing, b);
            UpsertAll(e, s, listing, a + b) == (u, created + more)
  {
    hide Upsert;
    if b == [] {
      assert a + b == a;
      assert UpsertAll(e, s, listing, a).1 + [] == UpsertAll(e, s, listing, a).1;
    } else {
      var n := |b| - 1;
      UpsertAllAppends(e, s, listing, a, b[..n]);
      var all := a + b;
      assert all[..|all| - 1] == a + b[..n] && all[|all| - 1] == b[n];
      var (t, created) := UpsertAll(e, s, listing, a);
      var more := UpsertAll(e, t, listing, b[..n]).1;
      assert forall x :: (created + more) + [x] == created + (more + [x]);
    }
  }

  lemma {:induction false} FiveEach(repos: seq<Repository>)
    ensures |AllRepositoryHooks(repos)| == 5 * |repos|
  {
    if repos != [] { FiveEach(repos[..|repos| - 1]); }
  }

  /** With distinct repositories, one is reported as created exactly when one of its hooks was missing. */
  lemma StatusIff(e: Endpoint, s: Store, repos: seq<Repository>, i: nat)
    requires WellFormed(s) && AreRepositories(repos) && i < |repos|
    ensures |Ensure(e, s, repos).1| == 5 * |repos|
    ensures Statuses(Ensure(e, s, repos).1, |repos|)[i] <==>
              exists h :: h in RepositoryHooks(repos[i]) && Find(e, s.subs, h).None?
  {
    hide AreDistinct, Find, FoundId, WellFormed, AllWritten, RepositoryHooks, AllRepositoryHooks, UpsertAll;
    var hooks, created := AllRepositoryHooks(repos), Ensure(e, s, repos).1;
    ScopedHooks(repos);
    AllAreWritten(e, s, s.subs, hooks);
    HooksOfRepository(repos, i);
    var five, own := created[5 * i..5 * i + 5], RepositoryHooks(repos[i]);
    assert forall k :: 0 <= k < 5 ==> (five[k] <==> Find(e, s.subs, own[k]).None?);
    assert true in five ==> exists k :: 0 <= k < 5 && five[k] && own[k] in own;
  }

  lemma {:induction false} HooksOfRepository(repos: seq<Repository>, i: nat)
    requires i < |repos|
    ensures |RepositoryHooks(repos[i])| == 5 && |AllRepositoryHooks(repos)| == 5 * |repos|
    ensures forall k :: 0 <= k < 5 ==> AllRepositoryHooks(repos)[5 * i + k] == RepositoryHooks(repos[i])[k]
  {
    FiveEach(repos);
    FiveEach(repos[..|repos| - 1]);
    if i < |repos| - 1 { HooksOfRepository(repos[..|repos| - 1], i); }
  }

  /**
    Removal reports a repository when it finds something of it, or of its project,
    that an earlier one did not take.
   */
  ghost predicate RemovesFor(e: Endpoint, subs: seq<Subscription>, repos: seq<Repository>, retain: set<string>, i: nat)
    requires i < |repos|
  {
    exists x :: x in subs && IsDoomed(e, x, repos[i], retain, DroppedIds(e, subs, repos[..i], retain))
  }

  /** What is deleted for a repository, when the project hooks in `taken` are deleted already. */
  predicate IsDoomed(e: Endpoint, x: Subscription, r: Repository, retain: set<string>, taken: set<nat>) {
    || IsRepositoryHook(e, x.body, r)
    || (!IsRetained(r.project, retain) && IsProjectHook(e, x.body, r.project) && x.id !in taken)
  }

  function Where(subs: seq<Subscription>, p: Subscription -> bool): (r: seq<Subscription>)
    ensures forall x :: x in r <==> x in subs && p(x)
  {
    if subs == [] then []
    else
      var n := |subs| - 1;
      assert subs == subs[..n] + [subs[n]];
      Where(subs[..n], p) + if p(subs[n]) then [subs[n]] else []
  }

  lemma {:induction false} WithoutTwice(subs: seq<Subscription>, a: set<nat>, b: set<nat>)
    ensures Without(Without(subs, a), b) == Without(subs, a + b)
  {
    if subs != [] {
      var n := |subs| - 1;
      WithoutTwice(subs[..n], a, b);
      var front := Without(subs[..n], a);
      assert (front + [subs[n]])[..|front|] == front;
    }
  }

  function Ids(subs: seq<Subscription>): set<nat> {
    set x | x in subs :: x.id
  }

  function ProjectIds(subs: seq<Subscription>): set<nat> {
    set x | x in subs && IsProjectEvent(x.body.event) :: x.id
  }

  lemma IdsGrow(subs: seq<Subscription>, x: Subscription)
    ensures Ids(subs + [x]) == Ids(subs) + {x.id}
    ensures ProjectIds(subs + [x]) == ProjectIds(subs) + if IsProjectEvent(x.body.event) then {x.id} else {}
  {
  }

  /** For project hooks, the ids noted as deleted are the ids gone. */
  ghost predicate TakenAgrees(subs: seq<Subscription>, taken: set<nat>, gone: set<nat>) {
    && taken <= gone
    && forall x :: x in subs && IsProjectEvent(x.body.event) ==> (x.id in taken <==> x.id in gone)
  }

  lemma TakenGrows(subs: seq<Subscription>, next: nat, taken: set<nat>, gone: set<nat>, doomed: seq<Subscription>)
    requires WellFormed(Store(subs, next)) && TakenAgrees(subs, taken, gone) && forall x :: x in doomed ==> x in subs
    ensures TakenAgrees(subs, taken + ProjectIds(doomed), gone + Ids(doomed))
  {
  }

  lemma TakenServesAsGone(
    e: Endpoint, subs: seq<Subscription>, r: Repository, retain: set<string>, taken: set<nat>, gone: set<nat>)
    requires TakenAgrees(subs, taken, gone)
    ensures forall x :: x in subs ==> (IsDoomed(e, x, r, retain, taken) <==> IsDoomed(e, x, r, retain, gone))
  {
  }

  /** One more repository: what is dropped for it joins what is dropped for those before. */
  lemma DroppedForNext(
    e: Endpoint, subs: seq<Subscription>, next: nat, repos: seq<Repository>, i: nat, retain: set<string>,
    taken: set<nat>, doomed: seq<Subscription>)
    requires WellFormed(Store(subs, next)) && i < |repos| && taken <= DroppedIds(e, subs, repos[..i], retain)
    requires forall x :: x in doomed <==> x in subs && IsDoomed(e, x, repos[i], retain, taken)
    ensures DroppedIds(e, subs, repos[..i + 1], retain)
              == DroppedIds(e, subs, repos[..i], retain) + Ids(doomed)
  {
  }

  class Client {
    var subs: seq<Subscription>
    var next: nat

    ghost function View(): Store
      reads this
    {
      Store(subs, next)
    }

    constructor ()
      ensures View() == Store([], 0)
    {
      subs, next := [], 0;
    }

    method Create(b: Body)
      modifies this
      ensures View() == Post(old(View()), b)
    {
      subs, next := subs + [Subscription(next, b)], next + 1;
    }

    method Update(id: nat, b: Body)
      modifies this`subs
      ensures View() == Put(old(View()), id, b)
    {
      subs := Put(Store(subs, next), id, b).subs;
    }

    /** Deleting what is not there is not an error. */
    method Delete(id: nat)
      modifies this`subs
      ensures subs == Without(old(subs), {id})
    {
      subs := Without(subs, {id});
    }

    method UpsertSubscription(e: Endpoint, h: Hook, listing: seq<Subscription>) returns (created: bool)
      modifies this
      ensures (View(), created) == Upsert(e, old(View()), listing, h)
    {
      var existing := Find(e, listing, h);
      if existing.None? {
        Create(Build(e, h));
        return true;
      }
      Update(listing[existing.value].id, Build(e, h));
      return false;
    }

    method UpsertEach(e: Endpoint, hooks: seq<Hook>, listing: seq<Subscription>) returns (created: seq<bool>)
      modifies this
      ensures (View(), created) == UpsertAll(e, old(View()), listing, hooks)
    {
      created := [];
      for i := 0 to |hooks|
        invariant (View(), created) == UpsertAll(e, old(View()), listing, hooks[..i])
      {
        var added := UpsertSubscription(e, hooks[i], listing);
        created := created + [added];
        assert hooks[..i + 1][..i] == hooks[..i];
      }
      assert hooks[..|hooks|] == hooks;
    }

    /** Lists once for all repositories, and once more for their projects. */
    method EnsureServiceHooks(e: Endpoint, repos: seq<Repository>) returns (created: seq<bool>)
      modifies this
      ensures View() == Ensure(e, old(View()), repos).0
      ensures |Ensure(e, old(View()), repos).1| == 5 * |repos|
      ensures created == Statuses(Ensure(e, old(View()), repos).1, |repos|)
    {
      hide UpsertAll, AllRepositoryHooks, AllProjectHooks, RepositoryHooks, ProjectHooks, Projects, Statuses;
      NoHooks(e, View(), subs);
      var listing := subs;
      ghost var flags: seq<bool> := [];
      created := [];
      for i := 0 to |repos|
        invariant (View(), flags) == UpsertAll(e, old(View()), listing, AllRepositoryHooks(repos[..i]))
        invariant |flags| == 5 * i && created == Statuses(flags, i)
      {
        NextRepository(repos, i);
        UpsertAllAppends(e, old(View()), listing, AllRepositoryHooks(repos[..i]), RepositoryHooks(repos[i]));
        var five := UpsertEach(e, RepositoryHooks(repos[i]), listing);
        StatusesGrow(flags, i, five);
        flags := flags + five;
        created := created + [true in five];
      }
      assert repos[..|repos|] == repos;
      NoHooks(e, View(), subs);
      var projectListing := subs;
      var projects := Projects(repos);
      ghost var before := View();
      ghost var more: seq<bool> := [];
      for i := 0 to |projects|
        invariant (View(), more) == UpsertAll(e, before, projectListing, AllProjectHooks(projects[..i]))
      {
        NextProject(projects, i);
        UpsertAllAppends(e, before, projectListing, AllProjectHooks(projects[..i]), ProjectHooks(projects[i]));
        var two := UpsertEach(e, ProjectHooks(projects[i]), projectListing);
        more := more + two;
      }
      assert projects[..|projects|] == projects;
    }

    method DeleteAll(doomed: seq<Subscription>, taken: set<nat>, ghost listing: seq<Subscription>, ghost gone: set<nat>)
      returns (done: set<nat>)
      requires subs == Without(listing, gone)
      modifies this`subs
      ensures subs == Without(listing, gone + Ids(doomed))
      ensures done == taken + ProjectIds(doomed)
    {
      done := taken;
      assert gone + Ids(doomed[..0]) == gone;
      for i := 0 to |doomed|
        invariant subs == Without(listing, gone + Ids(doomed[..i]))
        invariant done == taken + ProjectIds(doomed[..i])
      {
        assert doomed[..i + 1] == doomed[..i] + [doomed[i]];
        IdsGrow(doomed[..i], doomed[i]);
        WithoutTwice(listing, gone + Ids(doomed[..i]), {doomed[i].id});
        assert gone + Ids(doomed[..i + 1]) == gone + Ids(doomed[..i]) + {doomed[i].id};
        Delete(doomed[i].id);
        if IsProjectEvent(doomed[i].body.event) { done := done + {doomed[i].id}; }
      }
      assert doomed[..|doomed|] == doomed;
    }

    /** Works from one listing, and does not try to delete a project's hook twice. */
    method RemoveServiceHooks(e: Endpoint, repos: seq<Repository>, retain: set<string>) returns (removed: seq<bool>)
      requires WellFormed(View())
      modifies this`subs
      ensures View() == Remove(e, old(View()), repos, retain)
      ensures |removed| == |repos|
      ensures forall i :: 0 <= i < |repos| ==> (removed[i] <==> RemovesFor(e, old(subs), repos, retain, i))
    {
      hide Dropped, DroppedIds, Without, IsRepositoryHook, IsProjectHook, IsRetained, IsDoomed, TakenAgrees;
      hide RemovesFor, WellFormed;
      var listing := subs;
      var taken: set<nat> := {};
      removed := [];
      NoneDropped(e, listing, retain);
      for i := 0 to |repos|
        invariant subs == Without(listing, DroppedIds(e, listing, repos[..i], retain))
        invariant TakenAgrees(listing, taken, DroppedIds(e, listing, repos[..i], retain))
        invariant |removed| == i
        invariant forall k :: 0 <= k < i ==> (removed[k] <==> RemovesFor(e, listing, repos, retain, k))
      {
        var r := repos[i];
        var matching := Where(listing, (x: Subscription) => IsRepositoryHook(e, x.body, r));
        var forProject :=
          if IsRetained(r.project, retain) then []
          else Where(listing, (x: Subscription) => IsProjectHook(e, x.body, r.project) && x.id !in taken);
        var doomed := matching + forProject;
        ghost var gone := DroppedIds(e, listing, repos[..i], retain);
        DoomedIs(e, listing, repos, i, retain, taken, matching, forProject);
        DroppedForNext(e, listing, next, repos, i, retain, taken, doomed);
        removed := removed + [doomed != []];
        ghost var before := taken;
        taken := DeleteAll(doomed, taken, listing, gone);
        TakenGrows(listing, next, before, gone, doomed);
      }
      assert repos[..|repos|] == repos;
    }
  }

  lemma NoHooks(e: Endpoint, s: Store, listing: seq<Subscription>)
    ensures AllRepositoryHooks([]) == [] && AllProjectHooks([]) == [] && Statuses([], 0) == []
    ensures UpsertAll(e, s, listing, []) == (s, [])
  {
  }

  lemma NextRepository(repos: seq<Repository>, i: nat)
    requires i < |repos|
    ensures AllRepositoryHooks(repos[..i + 1]) == AllRepositoryHooks(repos[..i]) + RepositoryHooks(repos[i])
    ensures |RepositoryHooks(repos[i])| == 5
  {
    assert repos[..i + 1][..i] == repos[..i];
  }

  lemma NextProject(projects: seq<string>, i: nat)
    requires i < |projects|
    ensures AllProjectHooks(projects[..i + 1]) == AllProjectHooks(projects[..i]) + ProjectHooks(projects[i])
  {
    assert projects[..i + 1][..i] == projects[..i];
  }

  lemma StatusesGrow(flags: seq<bool>, n: nat, five: seq<bool>)
    requires |flags| == 5 * n && |five| == 5
    ensures Statuses(flags + five, n + 1) == Statuses(flags, n) + [true in five]
  {
    var all := flags + five;
    assert forall i :: 0 <= i < n ==> all[5 * i..5 * i + 5] == flags[5 * i..5 * i + 5];
    assert all[5 * n..5 * n + 5] == five;
  }

  lemma DoomedIs(
    e: Endpoint, subs: seq<Subscription>, repos: seq<Repository>, i: nat, retain: set<string>, taken: set<nat>,
    matching: seq<Subscription>, forProject: seq<Subscription>)
    requires i < |repos| && TakenAgrees(subs, taken, DroppedIds(e, subs, repos[..i], retain))
    requires forall x :: x in matching <==> x in subs && IsRepositoryHook(e, x.body, repos[i])
    requires forall x :: x in forProject <==>
      x in subs && !IsRetained(repos[i].project, retain) && IsProjectHook(e, x.body, repos[i].project) && x.id !in taken
    ensures taken <= DroppedIds(e, subs, repos[..i], retain)
    ensures forall x :: x in matching + forProject <==> x in subs && IsDoomed(e, x, repos[i], retain, taken)
    ensures matching + forProject != [] <==> RemovesFor(e, subs, repos, retain, i)
  {
    hide DroppedIds, IsRepositoryHook, IsRetained;
    var doomed := matching + forProject;
    assert forall x :: x in doomed <==> x in matching || x in forProject;
    TakenServesAsGone(e, subs, repos[i], retain, taken, DroppedIds(e, subs, repos[..i], retain));
    assert doomed != [] ==> doomed[0] in doomed;
  }

  lemma NoneDropped(e: Endpoint, subs: seq<Subscription>, retain: set<string>)
    ensures DroppedIds(e, subs, [], retain) == {} && Without(subs, {}) == subs && TakenAgrees(subs, {}, {})
  {
    NothingToDrop(subs, {});
  }
}

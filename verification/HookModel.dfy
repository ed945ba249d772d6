/**
  Service hooks of an Azure DevOps organization: a store of subscriptions, the
  hooks the deployment wants, and the reconciliation of one with the other.
 */
module HookModel {
  import opened Prelude

  /** An event to be told about; some say which notifications of it. */
  datatype Descriptor = Descriptor(event: string, notification: Option<string>, version: string)

  const REPOSITORY_EVENTS := [
    Descriptor("git.pullrequest.created", None, "1.0"),
    Descriptor("git.pullrequest.updated", Some("PushNotification"), "1.0"),
    Descriptor("git.pullrequest.updated", Some("StatusUpdateNotification"), "1.0"),
    Descriptor("ms.vss-code.git-pullrequest-comment-event", None, "1.0"),
    Descriptor("git.push", None, "1.0")]

  const PROJECT_EVENTS := [
    Descriptor("workitem.commented", None, "1.0"),
    Descriptor("build.complete", None, "2.0")]

  /** An absolute address as URL.toString gives it, without a query or a fragment. */
  type Address = s: string | s != "" && '?' !in s && '#' !in s witness "/"

  /** URLSearchParams.set on such an address, with a name and a value of letters. */
  function SetSearchParam(url: Address, name: string, value: string): string {
    url + "?" + name + "=" + value
  }

  /** Where hooks are delivered: the webhook's address, and the secret. */
  datatype Endpoint = Endpoint(url: Address, secret: string)

  datatype Repository = Repository(id: string, project: string)

  /** A hook to have: about a repository, or about a project when the repository is blank. */
  datatype Hook = Hook(repository: string, project: string, what: Descriptor)

  datatype Body = Body(
    publisher: string, consumer: string, action: string, event: string, version: string,
    inputs: map<string, string>, url: string, secret: string)

  datatype Subscription = Subscription(id: nat, body: Body)

  /** The subscriptions in listing order, and the next id to be given out. */
  datatype Store = Store(subs: seq<Subscription>, next: nat)

  predicate WellFormed(s: Store) {
    && (forall i, j :: 0 <= i < j < |s.subs| ==> s.subs[i].id != s.subs[j].id)
    && (forall i :: 0 <= i < |s.subs| ==> s.subs[i].id < s.next)
  }

  function Post(s: Store, b: Body): Store {
    Store(s.subs + [Subscription(s.next, b)], s.next + 1)
  }

  function Put(s: Store, id: nat, b: Body): Store {
    s.(subs := seq(|s.subs|, i requires 0 <= i < |s.subs| =>
      if s.subs[i].id == id then Subscription(id, b) else s.subs[i]))
  }

  function Input(b: Body, key: string): Option<string> {
    if key in b.inputs then Some(b.inputs[key]) else None
  }

  function OrBlank(v: Option<string>): string {
    if v.Some? then v.value else ""
  }

  predicate IsOurs(b: Body) {
    b.publisher == "tfs" && b.consumer == "webHooks" && b.action == "httpRequest"
  }

  function HookUrl(e: Endpoint, d: Descriptor): string {
    if d.notification.Some? then SetSearchParam(e.url, "notificationType", d.notification.value) else e.url
  }

  function Build(e: Endpoint, h: Hook): Body {
    var inputs := map["projectId" := h.project];
    var scoped := if h.repository != "" then inputs["repository" := h.repository] else inputs;
    var narrowed :=
      if h.what.notification.Some? then scoped["notificationType" := h.what.notification.value] else scoped;
    Body("tfs", "webHooks", "httpRequest", h.what.event, h.what.version, narrowed, HookUrl(e, h.what), e.secret)
  }

  /** An existing subscription that serves as the hook. */
  predicate Matches(e: Endpoint, b: Body, h: Hook) {
    && IsOurs(b) && b.event == h.what.event && b.url != "" && b.url == HookUrl(e, h.what)
    && Input(b, "projectId") == Some(h.project)
    && (if h.repository != "" then Input(b, "repository") == Some(h.repository)
        else OrBlank(Input(b, "repository")) == "")
    && (h.what.notification.Some? ==> Input(b, "notificationType") == h.what.notification)
  }

  /** The position of the first subscription that serves as the hook. */
  function Find(e: Endpoint, subs: seq<Subscription>, h: Hook): (r: Option<nat>)
    ensures r.Some? ==> r.value < |subs| && Matches(e, subs[r.value].body, h)
    ensures r.Some? ==> forall i :: 0 <= i < r.value ==> !Matches(e, subs[i].body, h)
    ensures r.None? ==> forall i :: 0 <= i < |subs| ==> !Matches(e, subs[i].body, h)
  {
    if subs == [] then None
    else
      var n := |subs| - 1;
      var earlier := Find(e, subs[..n], h);
      if earlier.Some? then earlier else if Matches(e, subs[n].body, h) then Some(n) else None
  }

  function FoundId(e: Endpoint, subs: seq<Subscription>, h: Hook): Option<nat> {
    var i := Find(e, subs, h);
    if i.Some? then Some(subs[i.value].id) else None
  }

  /**
    Looks the hook up in a listing, which may be out of date, and updates it or
    creates it; says whether it was created.
   */
  function Upsert(e: Endpoint, s: Store, listing: seq<Subscription>, h: Hook): (Store, bool) {
    match FoundId(e, listing, h)
    case None => (Post(s, Build(e, h)), true)
    case Some(id) => (Put(s, id, Build(e, h)), false)
  }

  function UpsertAll(e: Endpoint, s: Store, listing: seq<Subscription>, hooks: seq<Hook>): (r: (Store, seq<bool>))
    ensures |r.1| == |hooks|
  {
    if hooks == [] then (s, [])
    else
      var n := |hooks| - 1;
      var (before, created) := UpsertAll(e, s, listing, hooks[..n]);
      var (after, added) := Upsert(e, before, listing, hooks[n]);
      (after, created + [added])
  }

  function RepositoryHooks(r: Repository): (hooks: seq<Hook>) {
    seq(|REPOSITORY_EVENTS|, i requires 0 <= i < |REPOSITORY_EVENTS| => Hook(r.id, r.project, REPOSITORY_EVENTS[i]))
  }

  function ProjectHooks(project: string): seq<Hook> {
    seq(|PROJECT_EVENTS|, i requires 0 <= i < |PROJECT_EVENTS| => Hook("", project, PROJECT_EVENTS[i]))
  }

  function AllRepositoryHooks(repos: seq<Repository>): seq<Hook> {
    if repos == [] then [] else AllRepositoryHooks(repos[..|repos| - 1]) + RepositoryHooks(repos[|repos| - 1])
  }

  /** The projects of the repositories, each once, in order of first mention. */
  function Projects(repos: seq<Repository>): (ps: seq<string>)
    ensures forall p :: p in ps <==> exists r :: r in repos && r.project == p
    ensures forall i, j :: 0 <= i < j < |ps| ==> ps[i] != ps[j]
  {
    if repos == [] then []
    else
      var r := repos[|repos| - 1];
      var ps := Projects(repos[..|repos| - 1]);
      assert repos == repos[..|repos| - 1] + [r];
      if r.project in ps then ps else ps + [r.project]
  }

  function AllProjectHooks(ps: seq<string>): seq<Hook> {
    if ps == [] then [] else AllProjectHooks(ps[..|ps| - 1]) + ProjectHooks(ps[|ps| - 1])
  }

  /** Repository hooks from one listing, then project hooks from a second one. */
  function Ensure(e: Endpoint, s: Store, repos: seq<Repository>): (Store, seq<bool>, seq<bool>) {
    var (scoped, created) := UpsertAll(e, s, s.subs, AllRepositoryHooks(repos));
    var (all, createdForProjects) := UpsertAll(e, scoped, scoped.subs, AllProjectHooks(Projects(repos)));
    (all, created, createdForProjects)
  }

  /* ----- hooks do not get in each other's way ----- */

  /** A hook the deployment may want. */
  predicate Known(h: Hook) {
    h.what in REPOSITORY_EVENTS || h.what in PROJECT_EVENTS
  }

  lemma BuildMatches(e: Endpoint, h: Hook)
    ensures Matches(e, Build(e, h), h)
  {
  }

  /**
    What is written for a hook: delivered to the webhook with the deployment's
    secret, about the project and, if it is one of a repository, that repository;
    builds in the second version of the resource, all else in the first.
   */
  lemma BuildCarries(e: Endpoint, h: Hook)
    requires Known(h)
    ensures var b := Build(e, h);
            && b.secret == e.secret && b.event == h.what.event
            && b.publisher == "tfs" && b.consumer == "webHooks" && b.action == "httpRequest"
            && b.version == (if b.event == "build.complete" then "2.0" else "1.0")
            && Input(b, "projectId") == Some(h.project)
            && Input(b, "repository") == (if h.repository == "" then None else Some(h.repository))
            && Input(b, "notificationType") == h.what.notification
            && b.inputs.Keys <= {"projectId", "repository", "notificationType"}
            && b.url == (if h.what.notification.None? then e.url
                         else e.url + "?notificationType=" + h.what.notification.value)
  {
    assert "?" + "notificationType" + "=" == "?notificationType=";
    if h.what.notification.Some? {
      var n := h.what.notification.value;
      assert e.url + "?" + "notificationType" + "=" + n == e.url + "?notificationType=" + n;
    }
  }

  /** The hooks of a repository and of a project, by event and notification. */
  lemma EventsAre(h: Hook)
    ensures h.what in REPOSITORY_EVENTS <==>
              && h.what.version == "1.0"
              && (|| (h.what.notification.None?
                      && h.what.event in {
                           "git.pullrequest.created", "ms.vss-code.git-pullrequest-comment-event", "git.push"})
                  || (h.what.event == "git.pullrequest.updated"
                      && h.what.notification in {Some("PushNotification"), Some("StatusUpdateNotification")}))
    ensures h.what in PROJECT_EVENTS <==>
              && h.what.notification.None?
              && (|| (h.what.event == "workitem.commented" && h.what.version == "1.0")
                  || (h.what.event == "build.complete" && h.what.version == "2.0"))
  {
  }

  /** No subscription serves as two hooks. */
  lemma HooksAreExclusive(e: Endpoint, b: Body, h: Hook, k: Hook)
    requires Known(h) && Known(k) && Matches(e, b, h) && Matches(e, b, k)
    ensures h == k
  {
  }

  /* ----- one hook ----- */

  /** The first subscription that serves as the hook is just what would be written now. */
  ghost predicate Settled(e: Endpoint, s: Store, h: Hook) {
    Find(e, s.subs, h).Some? && s.subs[Find(e, s.subs, h).value].body == Build(e, h)
  }

  /** At most one subscription serves as the hook. */
  ghost predicate Single(e: Endpoint, subs: seq<Subscription>, h: Hook) {
    forall i, j :: 0 <= i < j < |subs| ==> !(Matches(e, subs[i].body, h) && Matches(e, subs[j].body, h))
  }

  lemma FindIs(e: Endpoint, subs: seq<Subscription>, h: Hook, n: nat)
    requires n < |subs| && Matches(e, subs[n].body, h)
    requires forall i :: 0 <= i < n ==> !Matches(e, subs[i].body, h)
    ensures Find(e, subs, h) == Some(n)
  {
  }

  lemma FindIsNone(e: Endpoint, subs: seq<Subscription>, h: Hook)
    requires forall i :: 0 <= i < |subs| ==> !Matches(e, subs[i].body, h)
    ensures Find(e, subs, h) == None
  {
  }

  /** What writing hook `h` does: it is settled, and nothing changes for another hook. */
  ghost predicate Written(e: Endpoint, s: Store, t: Store, h: Hook) {
    && WellFormed(t) && Settled(e, t, h)
    && (Settled(e, s, h) ==> t == s)
    && (Single(e, s.subs, h) ==> Single(e, t.subs, h))
    && (forall x :: x in s.subs && !Matches(e, x.body, h) ==> x in t.subs)
    && (forall x :: x in t.subs ==> x in s.subs || x.body == Build(e, h))
    && (forall k :: Known(k) && k != h ==> SameFor(e, s, t, k))
  }

  ghost predicate SameFor(e: Endpoint, s: Store, t: Store, k: Hook) {
    && FoundId(e, t.subs, k) == FoundId(e, s.subs, k)
    && (Settled(e, s, k) ==> Settled(e, t, k))
    && (Single(e, s.subs, k) ==> Single(e, t.subs, k))
  }

  lemma PostWrites(e: Endpoint, s: Store, h: Hook)
    requires WellFormed(s) && Known(h) && Find(e, s.subs, h).None?
    ensures Written(e, s, Post(s, Build(e, h)), h)
  {
    hide Matches, Build, Find, Known;
    var t := Post(s, Build(e, h));
    BuildMatches(e, h);
    assert forall i :: 0 <= i < |s.subs| ==> t.subs[i] == s.subs[i];
    assert t.subs[|s.subs|].body == Build(e, h);
    FindIs(e, t.subs, h, |s.subs|);
    forall k | Known(k) && k != h ensures SameFor(e, s, t, k) {
      assert !Matches(e, Build(e, h), k) by {
        if Matches(e, Build(e, h), k) { HooksAreExclusive(e, Build(e, h), h, k); }
      }
      var f := Find(e, s.subs, k);
      if f.Some? { FindIs(e, t.subs, k, f.value); } else { FindIsNone(e, t.subs, k); }
    }
  }

  lemma PutWrites(e: Endpoint, s: Store, h: Hook)
    requires WellFormed(s) && Known(h) && Find(e, s.subs, h).Some?
    ensures Written(e, s, Put(s, FoundId(e, s.subs, h).value, Build(e, h)), h)
  {
    hide Matches, Build, Find, Known;
    var n := Find(e, s.subs, h).value;
    var t := Put(s, s.subs[n].id, Build(e, h));
    BuildMatches(e, h);
    assert forall i :: 0 <= i < |s.subs| && i != n ==> t.subs[i] == s.subs[i];
    FindIs(e, t.subs, h, n);
    if Settled(e, s, h) { assert t.subs == s.subs; }
    forall k | Known(k) && k != h ensures SameFor(e, s, t, k) {
      assert !Matches(e, Build(e, h), k) by {
        if Matches(e, Build(e, h), k) { HooksAreExclusive(e, Build(e, h), h, k); }
      }
      assert !Matches(e, s.subs[n].body, k) by {
        if Matches(e, s.subs[n].body, k) { HooksAreExclusive(e, s.subs[n].body, h, k); }
      }
      assert forall i :: 0 <= i < |s.subs| ==> (Matches(e, t.subs[i].body, k) <==> Matches(e, s.subs[i].body, k));
      var f := Find(e, s.subs, k);
      if f.Some? { FindIs(e, t.subs, k, f.value); } else { FindIsNone(e, t.subs, k); }
    }
  }

  /** A listing out of date serves as well as a new one, as long as it shows the same subscription for this hook. */
  lemma UpsertWrites(e: Endpoint, s: Store, listing: seq<Subscription>, h: Hook)
    requires WellFormed(s) && Known(h) && FoundId(e, listing, h) == FoundId(e, s.subs, h)
    ensures Written(e, s, Upsert(e, s, listing, h).0, h)
    ensures Upsert(e, s, listing, h).1 <==> Find(e, s.subs, h).None?
  {
    hide Written;
    if Find(e, s.subs, h).Some? { PutWrites(e, s, h); } else { PostWrites(e, s, h); }
  }

  /* ----- many hooks, one listing ----- */

  ghost predicate AreDistinct(hooks: seq<Hook>) {
    && (forall i :: 0 <= i < |hooks| ==> Known(hooks[i]))
    && (forall i, j :: 0 <= i < j < |hooks| ==> hooks[i] != hooks[j])
  }

  ghost predicate AllWritten(e: Endpoint, s: Store, t: Store, hooks: seq<Hook>) {
    && WellFormed(t)
    && (forall h :: h in hooks ==> Settled(e, t, h))
    && ((forall h :: h in hooks ==> Settled(e, s, h)) ==> t == s)
    && (forall h :: h in hooks && Single(e, s.subs, h) ==> Single(e, t.subs, h))
    && (forall x :: x in s.subs && (forall h :: h in hooks ==> !Matches(e, x.body, h)) ==> x in t.subs)
    && (forall x :: x in t.subs ==> x in s.subs || exists h :: h in hooks && x.body == Build(e, h))
    && (forall k :: Known(k) && k !in hooks ==> SameFor(e, s, t, k))
  }

  /**
    One listing taken at the start is enough for distinct hooks, though the store
    changes under it: each is created exactly when it was missing at the start.
   */
  lemma {:induction false} AllAreWritten(e: Endpoint, s: Store, listing: seq<Subscription>, hooks: seq<Hook>)
    requires WellFormed(s) && AreDistinct(hooks)
    requires forall h :: h in hooks ==> FoundId(e, listing, h) == FoundId(e, s.subs, h)
    ensures AllWritten(e, s, UpsertAll(e, s, listing, hooks).0, hooks)
    ensures forall i :: 0 <= i < |hooks| ==> (UpsertAll(e, s, listing, hooks).1[i] <==> Find(e, s.subs, hooks[i]).None?)
  {
    hide AreDistinct, Find, FoundId, Written, AllWritten, Known, Upsert, WellFormed;
    if hooks == [] {
      NothingWritten(e, s);
    } else {
      var n := |hooks| - 1;
      var front, h := hooks[..n], hooks[n];
      assert hooks == front + [h];
      FrontIsDistinct(front, h);
      AllAreWritten(e, s, listing, front);
      var t := UpsertAll(e, s, listing, front).0;
      KeptByOthers(e, s, t, front, h);
      UpsertWrites(e, t, listing, h);
      OneMore(e, s, t, Upsert(e, t, listing, h).0, front, h);
    }
  }

  lemma NothingWritten(e: Endpoint, s: Store)
    requires WellFormed(s)
    ensures AllWritten(e, s, s, [])
  {
  }

  lemma FrontIsDistinct(front: seq<Hook>, h: Hook)
    requires AreDistinct(front + [h])
    ensures AreDistinct(front) && Known(h) && h !in front && forall k :: k in front ==> Known(k)
    ensures forall k :: k in front + [h] <==> k in front || k == h
  {
    var hooks := front + [h];
    assert forall i :: 0 <= i < |front| ==> hooks[i] == front[i];
    assert hooks[|front|] == h;
  }

  lemma KeptByOthers(e: Endpoint, s: Store, t: Store, front: seq<Hook>, h: Hook)
    requires AllWritten(e, s, t, front) && Known(h) && h !in front
    ensures WellFormed(t) && SameFor(e, s, t, h)
    ensures Find(e, t.subs, h).None? <==> Find(e, s.subs, h).None?
    ensures FoundId(e, t.subs, h) == FoundId(e, s.subs, h)
  {
    hide Find, Matches;
  }

  lemma OneMore(e: Endpoint, s: Store, t: Store, u: Store, front: seq<Hook>, h: Hook)
    requires AllWritten(e, s, t, front) && Written(e, t, u, h) && Known(h) && h !in front
    requires forall k :: k in front ==> Known(k)
    ensures AllWritten(e, s, u, front + [h])
  {
    hide Find, FoundId, Matches, Build, Settled, Single, Known, WellFormed;
    assert SameFor(e, s, t, h);
    assert forall k :: k in front ==> SameFor(e, t, u, k);
    assert forall k :: k in front + [h] <==> k in front || k == h;
  }

  /* ----- hooks in whatever number ----- */

  /** How often an element occurs. */
  function Times<T(==)>(xs: seq<T>, x: T): nat {
    if xs == [] then 0 else Times(xs[..|xs| - 1], x) + if xs[|xs| - 1] == x then 1 else 0
  }

  lemma {:induction false} TimesConcat<T>(a: seq<T>, b: seq<T>, x: T)
    ensures Times(a + b, x) == Times(a, x) + Times(b, x)
  {
    if b == [] {
      assert a + b == a;
    } else {
      TimesConcat(a, b[..|b| - 1], x);
      assert (a + b)[..|a + b| - 1] == a + b[..|b| - 1];
    }
  }

  lemma {:induction false} TimesIsOnceIff<T>(xs: seq<T>, x: T)
    ensures Times(xs, x) == 0 <==> x !in xs
    ensures Times(xs, x) <= 1 <==> forall i, j :: 0 <= i < j < |xs| ==> !(xs[i] == x && xs[j] == x)
  {
    if xs != [] {
      var n := |xs| - 1;
      TimesIsOnceIff(xs[..n], x);
      assert xs == xs[..n] + [xs[n]];
      if x in xs[..n] {
        var i :| 0 <= i < n && xs[..n][i] == x;
        assert xs[i] == x;
      }
    }
  }

  /** The hooks, in order and with repeats, that a listing does not show. */
  function Missing(e: Endpoint, listing: seq<Subscription>, hooks: seq<Hook>): seq<Hook> {
    if hooks == [] then [] else
    var n := |hooks| - 1;
    var front := Missing(e, listing, hooks[..n]);
    if Find(e, listing, hooks[n]).None? then front + [hooks[n]] else front
  }

  lemma {:induction false} MissingTimes(e: Endpoint, listing: seq<Subscription>, hooks: seq<Hook>, h: Hook)
    ensures Times(Missing(e, listing, hooks), h) == if Find(e, listing, h).None? then Times(hooks, h) else 0
  {
    if hooks != [] {
      var n := |hooks| - 1;
      var front := Missing(e, listing, hooks[..n]);
      MissingTimes(e, listing, hooks[..n], h);
      assert (front + [hooks[n]])[..|front|] == front;
    }
  }

  /** The old subscriptions serve as they did, and one new one has been made for each of these hooks. */
  ghost predicate Appended(e: Endpoint, s: Store, t: Store, made: seq<Hook>) {
    && WellFormed(t) && |t.subs| == |s.subs| + |made|
    && (forall i :: 0 <= i < |s.subs| ==> t.subs[i].id == s.subs[i].id)
    && (forall i, k :: 0 <= i < |s.subs| && Known(k) ==>
          (Matches(e, t.subs[i].body, k) <==> Matches(e, s.subs[i].body, k)))
    && (forall j :: 0 <= j < |made| ==> t.subs[|s.subs| + j].body == Build(e, made[j]))
  }

  lemma UpsertAppends(e: Endpoint, s: Store, t: Store, made: seq<Hook>, h: Hook)
    requires WellFormed(s) && Known(h) && Appended(e, s, t, made)
    ensures Appended(e, s, Upsert(e, t, s.subs, h).0, if Find(e, s.subs, h).None? then made + [h] else made)
  {
    hide Matches, Build, Known, Find;
    var found := Find(e, s.subs, h);
    if found.Some? {
      var n := found.value;
      var u := Put(t, s.subs[n].id, Build(e, h));
      assert forall i :: 0 <= i < |t.subs| && i != n ==> u.subs[i] == t.subs[i];
      forall k | Known(k) ensures Matches(e, Build(e, h), k) <==> Matches(e, s.subs[n].body, k) {
        BuildMatches(e, h);
        if Matches(e, Build(e, h), k) { HooksAreExclusive(e, Build(e, h), h, k); }
        if Matches(e, s.subs[n].body, k) { HooksAreExclusive(e, s.subs[n].body, h, k); }
      }
    }
  }

  /** Whatever hooks are asked for, however often, each one missing from the listing is made as often as asked. */
  lemma {:induction false} UpsertAllAppendsMissing(e: Endpoint, s: Store, hooks: seq<Hook>)
    requires WellFormed(s) && forall h :: h in hooks ==> Known(h)
    ensures Appended(e, s, UpsertAll(e, s, s.subs, hooks).0, Missing(e, s.subs, hooks))
  {
    if hooks != [] {
      hide Appended, Upsert, Find, Known, WellFormed;
      var n := |hooks| - 1;
      UpsertAllAppendsMissing(e, s, hooks[..n]);
      UpsertAppends(e, s, UpsertAll(e, s, s.subs, hooks[..n]).0, Missing(e, s.subs, hooks[..n]), hooks[n]);
    }
  }

  /** The subscription that served as each of these hooks at the start has been written anew. */
  ghost predicate Refreshed(e: Endpoint, s: Store, t: Store, hooks: seq<Hook>) {
    forall h :: h in hooks && Find(e, s.subs, h).Some? && Find(e, s.subs, h).value < |t.subs| ==>
      t.subs[Find(e, s.subs, h).value].body == Build(e, h)
  }

  lemma UpsertRefreshes(e: Endpoint, s: Store, t: Store, made: seq<Hook>, written: seq<Hook>, h: Hook)
    requires WellFormed(s) && Appended(e, s, t, made) && Refreshed(e, s, t, written)
    requires Known(h) && forall k :: k in written ==> Known(k)
    ensures Refreshed(e, s, Upsert(e, t, s.subs, h).0, written + [h])
  {
    hide Matches, Build, Known, Find;
    var found := Find(e, s.subs, h);
    forall k | k in written && found.Some? && Find(e, s.subs, k) == found ensures k == h {
      HooksAreExclusive(e, s.subs[found.value].body, h, k);
    }
    assert forall k :: k in written + [h] <==> k in written || k == h;
  }

  lemma {:induction false} UpsertAllRefreshes(e: Endpoint, s: Store, hooks: seq<Hook>)
    requires WellFormed(s) && forall h :: h in hooks ==> Known(h)
    ensures Refreshed(e, s, UpsertAll(e, s, s.subs, hooks).0, hooks)
  {
    if hooks != [] {
      hide Appended, Refreshed, Upsert, Find, Known, WellFormed;
      var n := |hooks| - 1;
      assert hooks == hooks[..n] + [hooks[n]];
      UpsertAllRefreshes(e, s, hooks[..n]);
      UpsertAllAppendsMissing(e, s, hooks[..n]);
      var t, made := UpsertAll(e, s, s.subs, hooks[..n]).0, Missing(e, s.subs, hooks[..n]);
      UpsertRefreshes(e, s, t, made, hooks[..n], hooks[n]);
    } else {
      assert Refreshed(e, s, s, []);
    }
  }

  /** All hooks asked for end settled, repeated or not. */
  lemma AllAreSettled(e: Endpoint, s: Store, hooks: seq<Hook>, h: Hook)
    requires WellFormed(s) && h in hooks && forall k :: k in hooks ==> Known(k)
    ensures WellFormed(UpsertAll(e, s, s.subs, hooks).0) && Settled(e, UpsertAll(e, s, s.subs, hooks).0, h)
  {
    var t, made := UpsertAll(e, s, s.subs, hooks).0, Missing(e, s.subs, hooks);
    UpsertAllAppendsMissing(e, s, hooks);
    UpsertAllRefreshes(e, s, hooks);
    MissingTimes(e, s.subs, hooks, h);
    TimesIsOnceIff(made, h);
    TimesIsOnceIff(hooks, h);
    MadeAreKnown(e, s.subs, hooks);
    hide UpsertAll, Missing, Times, Known, WellFormed, Matches, Build;
    SettledIn(e, s, t, made, h);
  }

  lemma SettledIn(e: Endpoint, s: Store, t: Store, made: seq<Hook>, h: Hook)
    requires Appended(e, s, t, made) && Refreshed(e, s, t, [h]) && Known(h) && forall k :: k in made ==> Known(k)
    requires Find(e, s.subs, h).None? ==> h in made
    ensures Settled(e, t, h)
  {
    hide Matches, Build, Known, Find, WellFormed;
    var n := |s.subs|;
    if Find(e, s.subs, h).Some? {
      assert h in [h];
      FindIs(e, t.subs, h, Find(e, s.subs, h).value);
    } else {
      var j :| 0 <= j < |made| && made[j] == h;
      assert t.subs[n + j].body == Build(e, h);
      BuildMatches(e, h);
      var i := Find(e, t.subs, h).value;
      assert i >= n;
      assert t.subs[n + (i - n)].body == Build(e, made[i - n]) && made[i - n] in made;
      BuildMatches(e, made[i - n]);
      HooksAreExclusive(e, Build(e, made[i - n]), made[i - n], h);
    }
  }

  /** A hook is single afterwards exactly when it was before and, if it was missing, is asked for once at most. */
  lemma SingleAfterIff(e: Endpoint, s: Store, hooks: seq<Hook>, h: Hook)
    requires WellFormed(s) && Known(h) && forall k :: k in hooks ==> Known(k)
    ensures var t := UpsertAll(e, s, s.subs, hooks).0;
            && WellFormed(t)
            && (Single(e, t.subs, h) <==> Single(e, s.subs, h) && (Find(e, s.subs, h).None? ==> Times(hooks, h) <= 1))
  {
    var made := Missing(e, s.subs, hooks);
    UpsertAllAppendsMissing(e, s, hooks);
    MissingTimes(e, s.subs, hooks, h);
    TimesIsOnceIff(made, h);
    MadeAreKnown(e, s.subs, hooks);
    hide UpsertAll, Missing, Times, Find, Known, WellFormed;
    AppendedSingleIff(e, s, UpsertAll(e, s, s.subs, hooks).0, made, h);
  }

  lemma {:induction false} MadeAreKnown(e: Endpoint, listing: seq<Subscription>, hooks: seq<Hook>)
    ensures forall h :: h in Missing(e, listing, hooks) ==> h in hooks
  {
    if hooks != [] {
      MadeAreKnown(e, listing, hooks[..|hooks| - 1]);
    }
  }

  lemma AppendedSingleIff(e: Endpoint, s: Store, t: Store, made: seq<Hook>, h: Hook)
    requires Appended(e, s, t, made) && Known(h) && forall k :: k in made ==> Known(k)
    requires h in made ==> Find(e, s.subs, h).None?
    ensures WellFormed(t)
    ensures Single(e, t.subs, h) <==>
              Single(e, s.subs, h) && forall i, j :: 0 <= i < j < |made| ==> !(made[i] == h && made[j] == h)
  {
    hide Matches, Build, Known, Find, WellFormed;
    var n := |s.subs|;
    forall j | 0 <= j < |made| ensures Matches(e, t.subs[n + j].body, h) <==> made[j] == h {
      assert made[j] in made;
      BuildMatches(e, h);
      BuildMatches(e, made[j]);
      if Matches(e, Build(e, made[j]), h) { HooksAreExclusive(e, Build(e, made[j]), made[j], h); }
    }
    if Single(e, t.subs, h) {
      forall i, j | 0 <= i < j < |made| ensures !(made[i] == h && made[j] == h) {
        assert !(Matches(e, t.subs[n + i].body, h) && Matches(e, t.subs[n + j].body, h));
      }
      forall i, j | 0 <= i < j < n ensures !(Matches(e, s.subs[i].body, h) && Matches(e, s.subs[j].body, h)) {
        assert !(Matches(e, t.subs[i].body, h) && Matches(e, t.subs[j].body, h));
      }
    }
    if Single(e, s.subs, h) && forall i, j :: 0 <= i < j < |made| ==> !(made[i] == h && made[j] == h) {
      forall i, j | 0 <= i < j < |t.subs| ensures !(Matches(e, t.subs[i].body, h) && Matches(e, t.subs[j].body, h)) {
        assert j >= n ==> (Matches(e, t.subs[n + (j - n)].body, h) <==> made[j - n] == h);
        assert i >= n ==> (Matches(e, t.subs[n + (i - n)].body, h) <==> made[i - n] == h);
        assert j >= n && made[j - n] == h ==> h in made;
      }
    }
  }
}

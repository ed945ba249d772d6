/**
  Installation tokens of GitHub, cached by scope. A scope is an app, an
  installation and a set of repositories; the cache keeps the scopes used most
  recently, and at most one request for a token is under way per scope.
 */
module TokenModel {
  import opened Prelude
  import opened Decimal
  import opened Fields

  const REFRESH_BUFFER := 5 * 60 * 1000

  const DEFAULT_MAX_AGE := 15 * 60 * 1000

  const MAX_ENTRIES := 500

  /* ----- canonical keys ----- */

  /** A digest in hexadecimal; that it has no colon is all that is used. */
  type Fingerprint = s: string | ':' !in s

  datatype Scope = Scope(app: Fingerprint, installation: int, repositories: seq<int>)

  predicate Ascending(s: seq<int>) {
    forall i, j :: 0 <= i < j < |s| ==> s[i] < s[j]
  }

  lemma PutFirst(x: int, s: seq<int>)
    requires Ascending(s) && forall y :: y in s ==> x < y
    ensures Ascending([x] + s)
  {
    var r := [x] + s;
    assert forall j :: 1 <= j < |r| ==> r[j] == s[j - 1] && s[j - 1] in s;
  }

  function Insert(x: int, s: seq<int>): (r: seq<int>)
    requires Ascending(s)
    ensures Ascending(r)
    ensures forall y :: y in r <==> y == x || y in s
  {
    if s == [] then [x]
    else if x < s[0] then [x] + s
    else if x == s[0] then s
    else
      var r := Insert(x, s[1..]);
      PutFirst(s[0], r);
      assert s == [s[0]] + s[1..];
      [s[0]] + r
  }

  /** The ids without repeats, in increasing order. */
  function NormalizeRepositoryIds(ids: seq<int>): (r: seq<int>)
    ensures Ascending(r)
    ensures forall x :: x in r <==> x in ids
  {
    if ids == [] then [] else Insert(ids[0], NormalizeRepositoryIds(ids[1..]))
  }

  function Printed(ids: seq<int>): seq<string> {
    seq(|ids|, i requires 0 <= i < |ids| => PrintInt(ids[i]))
  }

  function KeyText(app: string, installation: int, ids: seq<int>): string {
    app + ":" + (PrintInt(installation) + ":" + Join(Printed(ids), ','))
  }

  function CacheKey(s: Scope): string {
    KeyText(s.app, s.installation, NormalizeRepositoryIds(s.repositories))
  }

  ghost predicate SameScope(s: Scope, t: Scope) {
    s.app == t.app && s.installation == t.installation && forall x :: x in s.repositories <==> x in t.repositories
  }

  /** An increasing list is determined by what is in it. */
  lemma {:induction false} AscendingIsDetermined(a: seq<int>, b: seq<int>)
    requires Ascending(a) && Ascending(b) && forall x :: x in a <==> x in b
    ensures a == b
  {
    assert a != [] ==> a[0] in a;
    assert b != [] ==> b[0] in b;
    if a != [] && b != [] {
      forall x ensures x in a[1..] <==> x in b[1..] {
        RestOfAscending(a, x);
        RestOfAscending(b, x);
      }
      AscendingIsDetermined(a[1..], b[1..]);
      assert a == [a[0]] + a[1..] && b == [b[0]] + b[1..];
    }
  }

  lemma RestOfAscending(a: seq<int>, x: int)
    requires Ascending(a) && a != []
    ensures x in a[1..] <==> x in a && x != a[0]
  {
    assert a == [a[0]] + a[1..];
  }

  lemma PrintedIsInjective(a: seq<int>, b: seq<int>)
    requires Printed(a) == Printed(b)
    ensures a == b
  {
    assert |a| == |Printed(a)| == |b|;
    forall i | 0 <= i < |a| ensures a[i] == b[i] {
      assert Printed(a)[i] == PrintInt(a[i]) && Printed(b)[i] == PrintInt(b[i]);
      PrintIntInjective(a[i], b[i]);
    }
  }

  lemma JoinedIdsAreInjective(a: seq<int>, b: seq<int>)
    requires Join(Printed(a), ',') == Join(Printed(b), ',')
    ensures a == b
  {
    if a != [] && b != [] {
      SplitJoin(Printed(a), ',');
      SplitJoin(Printed(b), ',');
      PrintedIsInjective(a, b);
    } else {
      JoinedIsEmptyIff(a);
      JoinedIsEmptyIff(b);
    }
  }

  lemma JoinedIsEmptyIff(a: seq<int>)
    ensures Join(Printed(a), ',') == "" <==> a == []
  {
  }

  /**
    Two requests share a cache key exactly when they ask for the same thing, in
    whatever order and with whatever repeats.
   */
  lemma KeyEqualIff(s: Scope, t: Scope)
    ensures CacheKey(s) == CacheKey(t) <==> SameScope(s, t)
  {
    var a, b := NormalizeRepositoryIds(s.repositories), NormalizeRepositoryIds(t.repositories);
    if CacheKey(s) == CacheKey(t) {
      FirstFieldDetermined(s.app, PrintInt(s.installation) + ":" + Join(Printed(a), ','),
        t.app, PrintInt(t.installation) + ":" + Join(Printed(b), ','), ':');
      FirstFieldDetermined(PrintInt(s.installation), Join(Printed(a), ','),
        PrintInt(t.installation), Join(Printed(b), ','), ':');
      PrintIntInjective(s.installation, t.installation);
      JoinedIdsAreInjective(a, b);
    }
    if SameScope(s, t) {
      AscendingIsDetermined(a, b);
    }
  }

  /* ----- the bounded cache ----- */

  /** A cached token, known by the number of the request that got it. */
  datatype Entry = Entry(key: string, mint: nat, expiresAt: int, storedAt: int)

  /** What has been done about a key: used (stored or found), or deleted for being stale or refused. */
  datatype Use = Touch(key: string) | Drop(key: string)

  function IndexOf(es: seq<Entry>, key: string): (i: Option<nat>)
    ensures i.Some? ==> i.value < |es| && es[i.value].key == key
    ensures i.None? ==> forall j :: 0 <= j < |es| ==> es[j].key != key
  {
    if es == [] then None
    else if es[|es| - 1].key == key then Some(|es| - 1)
    else IndexOf(es[..|es| - 1], key)
  }

  /** Map.delete, on the entries in insertion order. */
  function Delete(es: seq<Entry>, key: string): seq<Entry> {
    match IndexOf(es, key)
    case None => es
    case Some(i) => es[..i] + es[i + 1..]
  }

  /** The newest entries, as many as the cache may hold. */
  function Newest(es: seq<Entry>): seq<Entry> {
    if |es| > MAX_ENTRIES then es[|es| - MAX_ENTRIES..] else es
  }

  /** When a key was last used, if it has not been deleted since. */
  function LastTouch(uses: seq<Use>, key: string): (t: Option<nat>)
    ensures t.Some? ==> t.value < |uses| && uses[t.value] == Touch(key)
  {
    if uses == [] then None
    else
      var n := |uses| - 1;
      if uses[n].key != key then LastTouch(uses[..n], key)
      else if uses[n].Touch? then Some(n) else None
  }

  ghost function TouchedAfter(uses: seq<Use>, t: nat): set<string> {
    set i | t < i < |uses| && uses[i].Touch? :: uses[i].key
  }

  predicate Distinct(es: seq<Entry>) {
    forall i, j :: 0 <= i < j < |es| ==> es[i].key != es[j].key
  }

  ghost predicate Has(es: seq<Entry>, key: string) {
    exists i :: 0 <= i < |es| && es[i].key == key
  }

  /** Used, not deleted since, and yet not in the cache. */
  ghost predicate Evicted(es: seq<Entry>, uses: seq<Use>, key: string) {
    LastTouch(uses, key).Some? && !Has(es, key)
  }

  /**
    The cache holds keys in order of last use. A key in use that it does not
    hold was last used before all it holds, and five hundred others since.
   */
  ghost predicate InOrder(es: seq<Entry>, uses: seq<Use>) {
    && Distinct(es)
    && (forall i :: 0 <= i < |es| ==> LastTouch(uses, es[i].key).Some?)
    && (forall i, j :: 0 <= i < j < |es| ==> LastTouch(uses, es[i].key).value < LastTouch(uses, es[j].key).value)
    && (forall k, i :: Evicted(es, uses, k) && 0 <= i < |es| ==>
          LastTouch(uses, k).value < LastTouch(uses, es[i].key).value)
    && (forall k :: Evicted(es, uses, k) ==> |TouchedAfter(uses, LastTouch(uses, k).value)| >= MAX_ENTRIES)
  }

  ghost predicate IsLru(es: seq<Entry>, uses: seq<Use>) {
    |es| <= MAX_ENTRIES && InOrder(es, uses)
  }

  /** Where an entry that is left after a deletion was before. */
  function Before(es: seq<Entry>, key: string, i: nat): nat {
    if IndexOf(es, key).Some? && i >= IndexOf(es, key).value then i + 1 else i
  }

  lemma DeleteKeeps(es: seq<Entry>, key: string)
    requires Distinct(es)
    ensures var d := Delete(es, key);
            && Distinct(d) && !Has(d, key) && |d| <= |es|
            && (forall k :: k != key ==> (Has(d, k) <==> Has(es, k)))
            && (forall i: nat :: i < |d| ==> Before(es, key, i) < |es| && d[i] == es[Before(es, key, i)])
            && (forall i: nat, j: nat :: i < j ==> Before(es, key, i) < Before(es, key, j))
  {
    var d := Delete(es, key);
    assert forall i: nat :: i < |d| ==> d[i] == es[Before(es, key, i)];
    forall k | k != key && Has(es, k) ensures Has(d, k) {
      var i :| 0 <= i < |es| && es[i].key == k;
      if IndexOf(es, key).Some? && i > IndexOf(es, key).value {
        assert d[i - 1] == es[i];
      } else {
        assert d[i] == es[i];
      }
    }
  }

  lemma UseAdded(uses: seq<Use>, u: Use)
    ensures LastTouch(uses + [u], u.key) == if u.Touch? then Some(|uses|) else None
    ensures forall k :: k != u.key ==> LastTouch(uses + [u], k) == LastTouch(uses, k)
  {
    assert (uses + [u])[..|uses|] == uses;
  }

  lemma TouchedGrows(uses: seq<Use>, u: Use, t: nat)
    ensures |TouchedAfter(uses, t)| <= |TouchedAfter(uses + [u], t)|
  {
    var a, b := TouchedAfter(uses, t), TouchedAfter(uses + [u], t);
    forall k | k in a ensures k in b {
      var i :| t < i < |uses| && uses[i].Touch? && uses[i].key == k;
      assert (uses + [u])[i] == uses[i];
    }
    SubsetSize(a, b);
  }

  lemma {:induction false} SubsetSize<T>(a: set<T>, b: set<T>)
    requires a <= b
    ensures |a| <= |b|
  {
    assert b == a + (b - a);
  }

  lemma {:induction false} KeysCounted(es: seq<Entry>)
    requires Distinct(es)
    ensures |set i | 0 <= i < |es| :: es[i].key| == |es|
  {
    if es != [] {
      var n := |es| - 1;
      KeysCounted(es[..n]);
      var front := set i | 0 <= i < n :: es[..n][i].key;
      assert (set i | 0 <= i < |es| :: es[i].key) == front + {es[n].key};
    }
  }

  lemma DropKeepsLru(es: seq<Entry>, uses: seq<Use>, key: string)
    requires IsLru(es, uses)
    ensures IsLru(Delete(es, key), uses + [Drop(key)])
  {
    hide LastTouch, TouchedAfter, Delete, IndexOf, Before;
    var d := Delete(es, key);
    DeleteKeeps(es, key);
    UseAdded(uses, Drop(key));
    assert forall i :: 0 <= i < |d| ==> d[i].key != key;
    forall k | Evicted(d, uses + [Drop(key)], k) ensures Evicted(es, uses, k) {
    }
    forall k | Evicted(d, uses + [Drop(key)], k)
      ensures |TouchedAfter(uses + [Drop(key)], LastTouch(uses + [Drop(key)], k).value)| >= MAX_ENTRIES
    {
      TouchedGrows(uses, Drop(key), LastTouch(uses, k).value);
    }
  }

  /** The use of a key puts it last. */
  lemma PutLastKeepsOrder(es: seq<Entry>, uses: seq<Use>, e: Entry)
    requires InOrder(es, uses)
    ensures InOrder(Delete(es, e.key) + [e], uses + [Touch(e.key)])
  {
    hide LastTouch, TouchedAfter, Delete, IndexOf, Before;
    var d, u := Delete(es, e.key), Touch(e.key);
    DeleteKeeps(es, e.key);
    UseAdded(uses, u);
    var r := d + [e];
    assert r[|d|] == e;
    assert forall i :: 0 <= i < |d| ==> r[i] == d[i];
    forall k | Evicted(r, uses + [u], k) ensures Evicted(es, uses, k) {
      assert Has(d, k) ==> Has(r, k);
    }
    forall k | Evicted(r, uses + [u], k)
      ensures |TouchedAfter(uses + [u], LastTouch(uses + [u], k).value)| >= MAX_ENTRIES
    {
      TouchedGrows(uses, u, LastTouch(uses, k).value);
    }
  }

  /** When there are too many, the key used least recently goes. */
  lemma EvictKeepsOrder(es: seq<Entry>, uses: seq<Use>)
    requires InOrder(es, uses) && |es| > MAX_ENTRIES
    ensures InOrder(es[1..], uses)
  {
    hide LastTouch, TouchedAfter;
    assert forall i :: 1 <= i < |es| ==> es[i] == es[1..][i - 1];
    assert forall k :: Evicted(es[1..], uses, k) ==> Evicted(es, uses, k) || k == es[0].key;
    forall k | Evicted(es[1..], uses, k) ensures |TouchedAfter(uses, LastTouch(uses, k).value)| >= MAX_ENTRIES {
      if !Evicted(es, uses, k) { HeldAreTouched(es[1..], uses, LastTouch(uses, k).value); }
    }
  }

  lemma OrderIsDistinct(es: seq<Entry>, uses: seq<Use>)
    requires InOrder(es, uses)
    ensures Distinct(es)
  {
  }

  function Store(es: seq<Entry>, e: Entry): seq<Entry> {
    Newest(Delete(es, e.key) + [e])
  }

  lemma StoreKeepsLru(es: seq<Entry>, uses: seq<Use>, e: Entry)
    requires IsLru(es, uses)
    ensures IsLru(Store(es, e), uses + [Touch(e.key)])
    ensures forall x :: x in Store(es, e) ==> x == e || x in es
  {
    hide Delete, Before, InOrder;
    assert Distinct(es) by { OrderIsDistinct(es, uses); }
    PutLastKeepsOrder(es, uses, e);
    DeleteKeeps(es, e.key);
    if |Delete(es, e.key)| + 1 > MAX_ENTRIES {
      EvictKeepsOrder(Delete(es, e.key) + [e], uses + [Touch(e.key)]);
    }
  }

  /** A full cache whose keys were all last used after `t`. */
  lemma HeldAreTouched(es: seq<Entry>, uses: seq<Use>, t: nat)
    requires |es| >= MAX_ENTRIES && Distinct(es)
    requires forall i :: 0 <= i < |es| ==> LastTouch(uses, es[i].key).Some? && t < LastTouch(uses, es[i].key).value
    ensures |TouchedAfter(uses, t)| >= MAX_ENTRIES
  {
    KeysCounted(es);
    SubsetSize(set i | 0 <= i < |es| :: es[i].key, TouchedAfter(uses, t));
  }
}

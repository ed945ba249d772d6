/**
  Innermost failed timeline records of an Azure DevOps build. Records name
  their parent by id; nothing makes ids unique or the graph acyclic.
 */
module Timeline {
  import opened Prelude
  import opened Text

  datatype Record = Record(
    id: Option<string>, parentId: Option<string>, result: Option<string>, kind: Option<string>, name: Option<string>)

  type Records = seq<Record>

  const MAX_TASKS := 5

  function Parent(r: Record): Option<string> {
    if r.parentId.Some? && !IsBlank(r.parentId.value) then r.parentId else None
  }

  predicate IsKind(r: Record, kind: string) {
    r.kind.Some? && Lower(r.kind.value) == kind
  }

  predicate IsFailed(r: Record) {
    r.result.Some? && Lower(r.result.value) == "failed"
  }

  predicate IsNamed(r: Record) {
    r.name.Some? && !IsBlank(r.name.value)
  }

  predicate HasId(r: Record) {
    r.id.Some? && !IsBlank(r.id.value)
  }

  /** The parent of the record an id resolves to: the last one with that id, if any. */
  function Next(rs: Records, id: string): (p: Option<string>)
    ensures p.Some? ==> exists r :: r in rs && Parent(r) == p
  {
    if rs == [] then None
    else if HasId(rs[|rs| - 1]) && rs[|rs| - 1].id.value == id then Parent(rs[|rs| - 1])
    else Next(rs[..|rs| - 1], id)
  }

  /** The `k`th id met when walking up from `start`. */
  function Walk(rs: Records, start: Option<string>, k: nat): Option<string> {
    if k == 0 then start
    else
      match Walk(rs, start, k - 1)
      case None => None
      case Some(id) => Next(rs, id)
  }

  /** Walking up from record `j` comes to `id`. */
  ghost predicate Reaches(rs: Records, j: nat, id: string)
    requires j < |rs|
  {
    exists k: nat :: Walk(rs, Parent(rs[j]), k) == Some(id)
  }

  /** Failed record `j` lies below failed record `i`. Records are told apart by position. */
  ghost predicate Below(rs: Records, i: nat, j: nat) {
    && i < |rs| && j < |rs| && i != j && IsFailed(rs[i]) && IsFailed(rs[j])
    && rs[i].id.Some? && Reaches(rs, j, rs[i].id.value)
  }

  ghost predicate IsLeaf(rs: Records, i: nat) {
    i < |rs| && IsFailed(rs[i]) && forall j: nat :: !Below(rs, i, j)
  }

  /** What a record is kept for. */
  datatype Criterion = Failures | InnermostFailures | ShownLeaves | FailedTasks | FailedJobs | FailedNamed

  ghost predicate Keeps(rs: Records, c: Criterion, i: nat)
    requires i < |rs|
  {
    && IsFailed(rs[i])
    && match c
       case Failures => true
       case InnermostFailures => IsLeaf(rs, i)
       case ShownLeaves => IsLeaf(rs, i) && IsShown(rs[i])
       case FailedTasks => IsKind(rs[i], "task")
       case FailedJobs => IsKind(rs[i], "job")
       case FailedNamed => IsNamed(rs[i])
  }

  predicate IsShown(r: Record) {
    IsKind(r, "task") || IsKind(r, "job") || IsNamed(r)
  }

  /** The positions below `n`, in order, that a criterion keeps. */
  ghost function Filter(rs: Records, c: Criterion, n: nat): (s: seq<nat>)
    requires n <= |rs|
    ensures forall i: nat :: i in s <==> i < n && Keeps(rs, c, i)
    ensures s == [] <==> forall i: nat :: i < n ==> !Keeps(rs, c, i)
  {
    if n == 0 then [] else if Keeps(rs, c, n - 1) then Filter(rs, c, n - 1) + [n - 1] else Filter(rs, c, n - 1)
  }

  lemma {:induction false} FilterAscends(rs: Records, c: Criterion, n: nat, a: nat, b: nat)
    requires n <= |rs| && a < b < |Filter(rs, c, n)|
    ensures Filter(rs, c, n)[a] < Filter(rs, c, n)[b]
  {
    var front := Filter(rs, c, n - 1);
    if b < |front| {
      FilterAscends(rs, c, n - 1, a, b);
    } else {
      assert front[a] in front;
    }
  }

  ghost function Failed(rs: Records): seq<nat> {
    Filter(rs, Failures, |rs|)
  }

  ghost function Leaves(rs: Records): seq<nat> {
    Filter(rs, InnermostFailures, |rs|)
  }

  ghost predicate HasParentLinks(rs: Records) {
    exists i: nat :: i < |rs| && IsFailed(rs[i]) && Parent(rs[i]).Some?
  }

  /* ----- the walk stops, and decides ----- */

  lemma WalkStep(rs: Records, start: Option<string>, k: nat)
    ensures Walk(rs, start, 0) == start
    ensures Walk(rs, start, k).Some? ==> Walk(rs, start, k + 1) == Next(rs, Walk(rs, start, k).value)
  {
  }

  lemma {:induction false} WalkStaysDone(rs: Records, start: Option<string>, k: nat, n: nat)
    requires k <= n && Walk(rs, start, k) == None
    ensures Walk(rs, start, n) == None
  {
    if k < n { WalkStaysDone(rs, start, k, n - 1); }
  }

  /** Once the walk comes back to an id, it goes round: it meets nothing new. */
  lemma {:induction false} WalkRepeats(rs: Records, start: Option<string>, m: nat, k: nat, n: nat)
    requires m < k <= n && Walk(rs, start, m) == Walk(rs, start, k)
    ensures exists j: nat :: j < k && Walk(rs, start, j) == Walk(rs, start, n)
  {
    if n > k {
      WalkRepeats(rs, start, m, k, n - 1);
      var j: nat :| j < k && Walk(rs, start, j) == Walk(rs, start, n - 1);
      assert Walk(rs, start, j + 1) == Walk(rs, start, n);
      if j + 1 == k {
        assert Walk(rs, start, m) == Walk(rs, start, n);
      }
    }
  }

  lemma {:induction false} WalkAdds(rs: Records, start: Option<string>, m: nat, n: nat)
    ensures Walk(rs, start, m + n) == Walk(rs, Walk(rs, start, m), n)
  {
    if n > 0 { WalkAdds(rs, start, m, n - 1); }
  }

  /**
    Walks up from record `j` until the target, the top, or an id already seen.
    It ends on every graph, and says exactly whether the walk ever comes to `id`.
   */
  method ReachesId(rs: Records, j: nat, id: string) returns (found: bool)
    requires j < |rs|
    ensures found <==> Reaches(rs, j, id)
  {
    hide Next, Parent, Walk;
    var start := Parent(rs[j]);
    WalkStep(rs, start, 0);
    var cursor := start;
    var seen: set<string> := {};
    ghost var k: nat := 0;
    ghost var parents := set r | r in rs && Parent(r).Some? :: Parent(r).value;
    while cursor.Some? && cursor.value !in seen
      invariant cursor == Walk(rs, start, k)
      invariant cursor.Some? ==> cursor.value in parents
      invariant seen <= parents
      invariant forall s :: s in seen ==> exists m: nat :: m < k && Walk(rs, start, m) == Some(s)
      invariant forall m: nat :: m < k ==> Walk(rs, start, m) != Some(id)
      decreases |parents - seen|
    {
      if cursor.value == id {
        return true;
      }
      assert cursor.value in parents - seen;
      assert parents - (seen + {cursor.value}) == (parents - seen) - {cursor.value};
      seen := seen + {cursor.value};
      WalkStep(rs, start, k);
      cursor := Next(rs, cursor.value);
      k := k + 1;
    }
    forall n: nat ensures Walk(rs, start, n) != Some(id) {
      if n >= k {
        if cursor.Some? {
          var m: nat :| m < k && Walk(rs, start, m) == cursor;
          WalkRepeats(rs, start, m, k, n);
        } else {
          WalkStaysDone(rs, start, k, n);
        }
      }
    }
    return false;
  }

  method HasFailedDescendant(rs: Records, failed: seq<nat>, i: nat) returns (found: bool)
    requires failed == Failed(rs) && i in failed
    ensures found <==> !IsLeaf(rs, i)
  {
    if rs[i].id.None? || rs[i].id.value == "" {
      forall j: nat ensures !Below(rs, i, j) {
        if Below(rs, i, j) { BlankIsNeverReached(rs, j, rs[i].id.value); }
      }
      return false;
    }
    for n := 0 to |failed|
      invariant forall m :: 0 <= m < n ==> !Below(rs, i, failed[m])
    {
      if failed[n] != i {
        assert failed[n] in failed;
        var below := ReachesId(rs, failed[n], rs[i].id.value);
        if below {
          assert Below(rs, i, failed[n]);
          return true;
        }
      }
    }
    assert forall j: nat :: Below(rs, i, j) ==> j in failed;
    return false;
  }

  lemma {:induction false} WalkMeetsParents(rs: Records, j: nat, k: nat)
    requires j < |rs|
    ensures Walk(rs, Parent(rs[j]), k).Some? ==> !IsBlank(Walk(rs, Parent(rs[j]), k).value)
  {
    if k > 0 { WalkMeetsParents(rs, j, k - 1); }
  }

  lemma BlankIsNeverReached(rs: Records, j: nat, id: string)
    requires j < |rs| && Reaches(rs, j, id)
    ensures !IsBlank(id)
  {
  }

  /* ----- the selection ----- */

  ghost function First(s: seq<nat>): seq<nat> {
    s[..Min(|s|, MAX_TASKS)]
  }

  /** The list the selection is the beginning of. */
  ghost function Candidates(rs: Records): Criterion {
    if HasParentLinks(rs) then
      if Filter(rs, ShownLeaves, |rs|) != [] then ShownLeaves else InnermostFailures
    else if Filter(rs, FailedTasks, |rs|) != [] then FailedTasks
    else if Filter(rs, FailedJobs, |rs|) != [] then FailedJobs
    else FailedNamed
  }

  ghost function Selected(rs: Records): seq<nat> {
    First(Filter(rs, Candidates(rs), |rs|))
  }

  method SelectInnermostFailedRecords(rs: Records) returns (selected: seq<nat>)
    ensures selected == Selected(rs)
  {
    var failed, linked := FailedRecords(rs);
    if linked {
      selected := LeafRecords(rs, failed);
    } else {
      selected := UnlinkedRecords(rs);
    }
    selected := selected[..Min(|selected|, MAX_TASKS)];
  }

  method FailedRecords(rs: Records) returns (failed: seq<nat>, linked: bool)
    ensures failed == Failed(rs)
    ensures linked <==> HasParentLinks(rs)
  {
    failed, linked := [], false;
    for i := 0 to |rs|
      invariant failed == Filter(rs, Failures, i)
      invariant linked <==> exists j: nat :: j < i && IsFailed(rs[j]) && Parent(rs[j]).Some?
    {
      if IsFailed(rs[i]) {
        failed := failed + [i];
        linked := linked || Parent(rs[i]).Some?;
      }
    }
  }

  method LeafRecords(rs: Records, failed: seq<nat>) returns (leaves: seq<nat>)
    requires failed == Failed(rs) && HasParentLinks(rs)
    ensures leaves == Filter(rs, Candidates(rs), |rs|)
  {
    var shown: seq<nat> := [];
    leaves := [];
    hide IsLeaf, IsFailed, IsShown, HasParentLinks;
    for i := 0 to |rs|
      invariant leaves == Filter(rs, InnermostFailures, i)
      invariant shown == Filter(rs, ShownLeaves, i)
    {
      if IsFailed(rs[i]) {
        assert i in failed;
        var outer := HasFailedDescendant(rs, failed, i);
        if !outer {
          leaves := leaves + [i];
          if IsShown(rs[i]) { shown := shown + [i]; }
        }
      }
    }
    if shown != [] { leaves := shown; }
  }

  method UnlinkedRecords(rs: Records) returns (records: seq<nat>)
    requires !HasParentLinks(rs)
    ensures records == Filter(rs, Candidates(rs), |rs|)
  {
    var tasks, jobs, named: seq<nat> := [], [], [];
    hide IsKind, IsNamed, IsFailed, HasParentLinks;
    for i := 0 to |rs|
      invariant tasks == Filter(rs, FailedTasks, i)
      invariant jobs == Filter(rs, FailedJobs, i)
      invariant named == Filter(rs, FailedNamed, i)
    {
      if IsFailed(rs[i]) {
        if IsKind(rs[i], "task") { tasks := tasks + [i]; }
        if IsKind(rs[i], "job") { jobs := jobs + [i]; }
        if IsNamed(rs[i]) { named := named + [i]; }
      }
    }
    records := if tasks != [] then tasks else if jobs != [] then jobs else named;
  }

  /* ----- what the selection means ----- */

  predicate UniqueIds(rs: Records) {
    forall i, j :: 0 <= i < j < |rs| && HasId(rs[i]) ==> rs[i].id != rs[j].id
  }

  lemma {:induction false} NextIsParent(rs: Records, i: nat)
    requires UniqueIds(rs) && i < |rs| && HasId(rs[i])
    ensures Next(rs, rs[i].id.value) == Parent(rs[i])
  {
    if i < |rs| - 1 { NextIsParent(rs[..|rs| - 1], i); }
  }

  /** With unique ids, "reaches" goes through an intermediate record. */
  lemma ReachesThrough(rs: Records, i: nat, j: nat, id: string)
    requires UniqueIds(rs) && i < |rs| && j < |rs| && rs[j].id.Some?
    requires Reaches(rs, i, rs[j].id.value) && Reaches(rs, j, id)
    ensures Reaches(rs, i, id)
  {
    hide IsBlank, Next, UniqueIds;
    BlankIsNeverReached(rs, i, rs[j].id.value);
    NextIsParent(rs, j);
    var m: nat :| Walk(rs, Parent(rs[i]), m) == Some(rs[j].id.value);
    var n: nat :| Walk(rs, Parent(rs[j]), n) == Some(id);
    assert Walk(rs, Parent(rs[i]), m + 1) == Parent(rs[j]);
    WalkAdds(rs, Parent(rs[i]), m + 1, n);
    assert Walk(rs, Parent(rs[i]), m + 1 + n) == Some(id);
  }

  lemma BelowIsTransitive(rs: Records, i: nat, j: nat, k: nat)
    requires UniqueIds(rs) && Below(rs, i, j) && Below(rs, j, k) && i != k
    ensures Below(rs, i, k)
  {
    ReachesThrough(rs, k, j, rs[i].id.value);
  }

  /** A leaf at or below record `i`. */
  ghost predicate LeafUnder(rs: Records, i: nat, l: nat) {
    IsLeaf(rs, l) && (l == i || Below(rs, i, l))
  }

  ghost predicate EveryFailureHasLeaf(rs: Records) {
    forall i: nat :: i < |rs| && IsFailed(rs[i]) ==> exists l: nat :: LeafUnder(rs, i, l)
  }

  /** Any two failed records on a common cycle have a failed record hanging below the cycle. */
  ghost predicate CyclesHaveTails(rs: Records) {
    forall i: nat, j: nat :: Below(rs, i, j) && Below(rs, j, i) ==> exists k: nat :: Below(rs, i, k) && !Below(rs, k, i)
  }

  /** No record is its own ancestor. */
  ghost predicate Acyclic(rs: Records) {
    forall i: nat :: i < |rs| && HasId(rs[i]) ==> !Reaches(rs, i, rs[i].id.value)
  }

  lemma {:induction false} FindLeaf(rs: Records, i: nat) returns (l: nat)
    requires UniqueIds(rs) && CyclesHaveTails(rs) && i < |rs| && IsFailed(rs[i])
    ensures LeafUnder(rs, i, l)
    decreases |set k: nat | k < |rs| && Below(rs, i, k)|
  {
    hide Below;
    if IsLeaf(rs, i) { return i; }
    var j: nat :| Below(rs, i, j);
    if Below(rs, j, i) {
      j :| Below(rs, i, j) && !Below(rs, j, i);
    }
    BelowMeans(rs, i, j);
    var under, further := set k: nat | k < |rs| && Below(rs, i, k), set k: nat | k < |rs| && Below(rs, j, k);
    forall k | k in further ensures k in under {
      BelowIsTransitive(rs, i, j, k);
    }
    BelowMeans(rs, j, j);
    assert j in under && j !in further;
    SmallerSubset(further, under);
    l := FindLeaf(rs, j);
    if l != j { BelowIsTransitive(rs, i, j, l); }
  }

  lemma BelowMeans(rs: Records, i: nat, j: nat)
    ensures Below(rs, i, j) ==> i < |rs| && j < |rs| && i != j && IsFailed(rs[i]) && IsFailed(rs[j])
  {
  }

  lemma SmallerSubset(a: set<nat>, b: set<nat>)
    requires a < b
    ensures |a| < |b|
  {
    var d := b - a;
    assert b == a + d;
    assert d != {};
  }

  /**
    When ids are unique, every failed record has a leaf at or below it exactly
    when no group of failed records on one cycle is at the bottom.
   */
  lemma LeavesCoverIff(rs: Records)
    requires UniqueIds(rs)
    ensures EveryFailureHasLeaf(rs) <==> CyclesHaveTails(rs)
  {
    if CyclesHaveTails(rs) {
      forall i: nat | i < |rs| && IsFailed(rs[i]) ensures exists l: nat :: LeafUnder(rs, i, l) {
        var l := FindLeaf(rs, i);
      }
    }
    if EveryFailureHasLeaf(rs) {
      hide Below;
      forall i: nat, j: nat | Below(rs, i, j) && Below(rs, j, i)
        ensures exists k: nat :: Below(rs, i, k) && !Below(rs, k, i)
      {
        BelowMeans(rs, i, j);
        var l: nat :| LeafUnder(rs, i, l);
        assert Below(rs, i, l) && !Below(rs, l, i);
      }
    }
  }

  lemma AcyclicHasTails(rs: Records)
    requires UniqueIds(rs) && Acyclic(rs)
    ensures CyclesHaveTails(rs)
  {
    forall i: nat, j: nat | Below(rs, i, j) ensures !Below(rs, j, i) {
      if Below(rs, j, i) {
        ReachesThrough(rs, i, j, rs[i].id.value);
        BlankIsNeverReached(rs, j, rs[i].id.value);
      }
    }
  }

  /** On an acyclic timeline with unique ids nothing that failed is left without evidence. */
  lemma AcyclicSelection(rs: Records)
    requires UniqueIds(rs) && Acyclic(rs)
    ensures EveryFailureHasLeaf(rs)
    ensures Failed(rs) != [] ==> Leaves(rs) != []
    ensures Failed(rs) != [] && HasParentLinks(rs) ==> Selected(rs) != []
  {
    AcyclicHasTails(rs);
    LeavesCoverIff(rs);
    if Failed(rs) != [] { CoverIsNonEmpty(rs); }
  }

  lemma CoverIsNonEmpty(rs: Records)
    requires EveryFailureHasLeaf(rs) && Failed(rs) != []
    ensures Leaves(rs) != []
    ensures HasParentLinks(rs) ==> Selected(rs) != []
  {
    hide Below, HasParentLinks, IsFailed, IsShown;
    var i := Failed(rs)[0];
    assert i in Failed(rs);
    var l: nat :| LeafUnder(rs, i, l);
    LeafKept(rs, l);
  }

  lemma LeafKept(rs: Records, l: nat)
    requires IsLeaf(rs, l)
    ensures l in Leaves(rs)
  {
  }

  /** On any timeline, at most five distinct failed records are selected, in order, and none lies below another. */
  lemma SelectionIsUnrelated(rs: Records)
    ensures |Selected(rs)| <= MAX_TASKS
    ensures forall a, b :: 0 <= a < b < |Selected(rs)| ==> Selected(rs)[a] < Selected(rs)[b]
    ensures forall i :: i in Selected(rs) ==> i < |rs| && IsFailed(rs[i])
    ensures forall i, j :: i in Selected(rs) && j in Selected(rs) ==> !Below(rs, i, j)
  {
    var c := Candidates(rs);
    forall a, b | 0 <= a < b < |Selected(rs)| ensures Selected(rs)[a] < Selected(rs)[b] {
      FilterAscends(rs, c, |rs|, a, b);
    }
    assert forall i :: i in Selected(rs) ==> i in Filter(rs, c, |rs|);
    if !HasParentLinks(rs) {
      forall i: nat, j: nat ensures !Below(rs, i, j) {
        if Below(rs, i, j) {
          var k: nat :| Walk(rs, Parent(rs[j]), k) == Some(rs[i].id.value);
          WalkStaysDone(rs, Parent(rs[j]), 0, k);
        }
      }
    }
  }

  /** Some failed record is of this kind. */
  predicate AnyFailed(rs: Records, kind: string) {
    exists i :: 0 <= i < |rs| && IsFailed(rs[i]) && IsKind(rs[i], kind)
  }

  /**
    What there is to select from. When failed records name parents: the leaves
    that are tasks or jobs or have a name, or all leaves if none is. Otherwise the
    failed tasks, or the failed jobs if there is none, or else those with a name.
   */
  ghost predicate IsOffered(rs: Records, i: nat) {
    && i < |rs| && IsFailed(rs[i])
    && if HasParentLinks(rs) then
         IsLeaf(rs, i) && ((exists j: nat :: IsLeaf(rs, j) && IsWorthShowing(rs[j])) ==> IsWorthShowing(rs[i]))
       else if AnyFailed(rs, "task") then IsKind(rs[i], "task")
       else if AnyFailed(rs, "job") then IsKind(rs[i], "job")
       else IsNamed(rs[i])
  }

  predicate IsWorthShowing(r: Record) {
    IsKind(r, "task") || IsKind(r, "job") || (r.name.Some? && !IsBlank(r.name.value))
  }

  /** The first five of them are selected. */
  lemma FirstFiveAreSelected(rs: Records)
    ensures forall i :: i in Selected(rs) ==> IsOffered(rs, i)
    ensures forall i: nat :: IsOffered(rs, i) && i !in Selected(rs) ==>
              |Selected(rs)| == 5 && forall j :: j in Selected(rs) ==> j < i
  {
    var c := Candidates(rs);
    var all := Filter(rs, c, |rs|);
    forall i: nat ensures i in all <==> IsOffered(rs, i) {
      OfferedIff(rs, i);
    }
    hide Candidates, IsOffered, Keeps, Filter;
    forall i: nat | i in all && i !in Selected(rs)
      ensures |Selected(rs)| == 5 && forall j :: j in Selected(rs) ==> j < i
    {
      var b :| 0 <= b < |all| && all[b] == i;
      forall j | j in Selected(rs) ensures j < i {
        var a :| 0 <= a < |Selected(rs)| && Selected(rs)[a] == j;
        FilterAscends(rs, c, |rs|, a, b);
      }
    }
  }

  lemma OfferedIff(rs: Records, i: nat)
    ensures i in Filter(rs, Candidates(rs), |rs|) <==> IsOffered(rs, i)
  {
    hide Below, IsKind, IsFailed, HasParentLinks;
    NoneOfIff(rs, "task", FailedTasks);
    NoneOfIff(rs, "job", FailedJobs);
    NoneShownIff(rs);
  }

  lemma NoneOfIff(rs: Records, kind: string, c: Criterion)
    requires (kind == "task" && c.FailedTasks?) || (kind == "job" && c.FailedJobs?)
    ensures Filter(rs, c, |rs|) != [] <==> AnyFailed(rs, kind)
  {
    hide IsKind, IsFailed;
    if AnyFailed(rs, kind) {
      var i :| 0 <= i < |rs| && IsFailed(rs[i]) && IsKind(rs[i], kind);
      assert Keeps(rs, c, i);
    }
  }

  lemma NoneShownIff(rs: Records)
    ensures Filter(rs, ShownLeaves, |rs|) != [] <==> exists j: nat :: IsLeaf(rs, j) && IsWorthShowing(rs[j])
  {
    hide Below, IsKind, IsFailed;
    if j: nat :| IsLeaf(rs, j) && IsWorthShowing(rs[j]) {
      assert Keeps(rs, ShownLeaves, j);
    }
  }

  /** Two failed records that name each other as parent hide each other: nothing is selected. */
  lemma CycleSelectsNothing(a: string, b: string)
    requires !IsBlank(a) && !IsBlank(b) && a != b
    ensures var rs := [
        Record(Some(a), Some(b), Some("failed"), Some("Task"), None),
        Record(Some(b), Some(a), Some("failed"), Some("Task"), None)];
      UniqueIds(rs) && 0 in Failed(rs) && 1 in Failed(rs) && Selected(rs) == []
  {
    var rs := [
      Record(Some(a), Some(b), Some("failed"), Some("Task"), None),
      Record(Some(b), Some(a), Some("failed"), Some("Task"), None)];
    assert Lower("failed") == "failed";
    assert Walk(rs, Parent(rs[0]), 0) == Some(b) && Walk(rs, Parent(rs[1]), 0) == Some(a);
    assert Below(rs, 0, 1) && Below(rs, 1, 0);
    assert forall i: nat :: !IsLeaf(rs, i);
    assert HasParentLinks(rs);
  }
}

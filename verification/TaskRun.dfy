/**
  One row of task_runs and its whole history: every transaction of any
  controller, and every step of the worker and of the user, is one entry, in the
  order in which the database serialised them. The number of controllers does not
  matter here; Controllers.dfy adds what each keeps in memory.
 */
module TaskRun {
  import opened Prelude

  const HOUR := 60 * 60 * 1000
  const ORPHANED_PENDING_THRESHOLD_MS := 5 * 60 * 1000
  const SANDBOX_CREATE_PHASE_MAX_DURATION_MS := 3 * 30_000 + (2_000 + 4_000)
  const SANDBOX_WRITE_PHASE_MAX_DURATION_MS := 3 * 60_000 + (2_000 + 4_000)
  const SANDBOX_SPAWN_ATTEMPT_MAX_DURATION_MS :=
    SANDBOX_CREATE_PHASE_MAX_DURATION_MS + SANDBOX_WRITE_PHASE_MAX_DURATION_MS + 60_000 + 120_000
  const SANDBOX_SPAWN_MAX_DURATION_MS := 2 * SANDBOX_SPAWN_ATTEMPT_MAX_DURATION_MS + 5_000
  const SANDBOX_ORPHAN_SCAN_INTERVAL_MS := 30_000
  const ORPHANED_AFTER_DEQUEUE_THRESHOLD_MS := SANDBOX_SPAWN_MAX_DURATION_MS + SANDBOX_ORPHAN_SCAN_INTERVAL_MS
  const WORKER_BOOTSTRAP_CLAIM_TIMEOUT_MS := 2 * 60 * 1000

  datatype Status =
    | Pending | Dequeued | Processing | Preparing | Spawning | Connecting | Running
    | Completed | Failed | Canceled | Idle

  predicate IsExited(s: Status) {
    s.Completed? || s.Failed? || s.Canceled?
  }

  datatype Row = Row(
    status: Status,
    createdAt: int,
    dequeuedAt: Option<int>,
    provisionReadyAt: Option<int>,
    startedAt: Option<int>,
    heartbeatAt: Option<int>,
    cancelRequestedAt: Option<int>,
    canceledAt: Option<int>,
    waitingForProvider: bool)

  /** The first four are the controllers'; the others happen around them. */
  datatype Change =
    | DispatchClaim(snapshot: Row)
    | BootstrapRestart
    | BootstrapFailure
    | OrphanClaim
    | WorkerStart
    | Heartbeat
    | ProvisionReady
    | CancelRequest
    | Cancel
    | Progress(to: Status)
    | Finish(to: Status)

  datatype Entry = Entry(change: Change, before: Row, after: Row, at: int)

  type History = seq<Entry>

  predicate NoCancel(row: Row) {
    row.cancelRequestedAt.None? && row.canceledAt.None?
  }

  /** The check on the loaded row that precedes the compare-and-set. */
  predicate MayDispatch(snapshot: Row) {
    NoCancel(snapshot) && !IsExited(snapshot.status)
  }

  /** Dequeued, and no sign of life from its worker. */
  predicate Unclaimed(row: Row) {
    row.status.Dequeued? && row.startedAt.None? && row.heartbeatAt.None? && row.canceledAt.None?
  }

  predicate OrphanEligible(row: Row, now: int) {
    NoCancel(row) &&
    ((&& row.status.Pending? && !row.waitingForProvider
      && row.createdAt < now - ORPHANED_PENDING_THRESHOLD_MS && now - 24 * HOUR < row.createdAt)
     || (row.status.Dequeued? && row.dequeuedAt.Some?
         && row.dequeuedAt.value < now - ORPHANED_AFTER_DEQUEUE_THRESHOLD_MS))
  }

  /** The overdue query of failTimedOutWorkerBootstraps. */
  predicate BootstrapOverdue(row: Row, now: int) {
    Unclaimed(row) && row.provisionReadyAt.Some? && row.provisionReadyAt.value < now - WORKER_BOOTSTRAP_CLAIM_TIMEOUT_MS
  }

  predicate RestartRecorded(h: History) {
    exists i :: 0 <= i < |h| && h[i].change.BootstrapRestart?
  }

  /** The query of findPersistedWorkerBootstrapRestarts. */
  predicate FoundByRecovery(row: Row, h: History) {
    row.status.Pending? && row.startedAt.None? && row.canceledAt.None? && RestartRecorded(h)
  }

  predicate Allowed(row: Row, h: History, change: Change, now: int) {
    match change
    case DispatchClaim(snapshot) => MayDispatch(snapshot) && row.status == snapshot.status && NoCancel(row)
    case BootstrapRestart => Unclaimed(row) && !RestartRecorded(h)
    case BootstrapFailure => Unclaimed(row)
    case OrphanClaim => OrphanEligible(row, now)
    case WorkerStart => row.status.Dequeued?
    case Heartbeat => true
    case ProvisionReady => row.status.Dequeued?
    case CancelRequest => row.cancelRequestedAt.None?
    case Cancel => !IsExited(row.status)
    case Progress(to) =>
      !row.status.Pending? && !row.status.Dequeued? && !to.Pending? && !to.Dequeued? && !IsExited(to)
    case Finish(to) => IsExited(to)
  }

  function Apply(row: Row, change: Change, now: int): Row {
    match change
    case DispatchClaim(_) => row.(status := Dequeued, dequeuedAt := Some(now))
    case BootstrapRestart => row.(status := Pending, dequeuedAt := None, provisionReadyAt := None)
    case BootstrapFailure => row.(status := Failed)
    case OrphanClaim => row.(status := Dequeued, dequeuedAt := Some(now))
    case WorkerStart => row.(status := Processing, startedAt := Some(now))
    case Heartbeat => row.(heartbeatAt := Some(now))
    case ProvisionReady => row.(provisionReadyAt := Some(now))
    case CancelRequest => row.(cancelRequestedAt := Some(now))
    case Cancel => row.(status := Canceled, cancelRequestedAt := Some(now), canceledAt := Some(now))
    case Progress(to) => row.(status := to)
    case Finish(to) => row.(status := to)
  }

  function RowAfter(first: Row, h: History): Row {
    if h == [] then first else h[|h| - 1].after
  }

  function Latest(first: Row, h: History): int {
    if h == [] then first.createdAt else h[|h| - 1].at
  }

  /** As inserted: usually Pending, and already dequeued exactly if inserted as Dequeued. */
  predicate Created(row: Row) {
    (row.dequeuedAt.Some? <==> row.status.Dequeued?) && row.startedAt.None? && row.heartbeatAt.None?
  }

  /** A history that the transactions and the environment can produce. */
  predicate Legal(first: Row, h: History) {
    if h == [] then Created(first) else
    var past, e := h[..|h| - 1], h[|h| - 1];
    && Legal(first, past)
    && e.before == RowAfter(first, past)
    && Latest(first, past) <= e.at
    && Allowed(e.before, past, e.change, e.at)
    && e.after == Apply(e.before, e.change, e.at)
  }

  function Extend(first: Row, h: History, change: Change, now: int): History {
    var row := RowAfter(first, h);
    h + [Entry(change, row, Apply(row, change, now), now)]
  }

  lemma ExtendIsLegal(first: Row, h: History, change: Change, now: int)
    requires Legal(first, h) && Latest(first, h) <= now && Allowed(RowAfter(first, h), h, change, now)
    ensures Legal(first, Extend(first, h, change, now))
  {
    assert Extend(first, h, change, now)[..|h|] == h;
  }

  /** Every entry of a legal history follows the entries before it. */
  lemma {:induction false} EntryOf(first: Row, h: History, i: nat)
    requires Legal(first, h) && i < |h|
    ensures Legal(first, h[..i]) && Legal(first, h[..i + 1])
    ensures h[i].before == RowAfter(first, h[..i])
    ensures Allowed(h[i].before, h[..i], h[i].change, h[i].at)
    ensures h[i].after == Apply(h[i].before, h[i].change, h[i].at)
    ensures Latest(first, h[..i]) <= h[i].at
    ensures i > 0 ==> h[i].before == h[i - 1].after && h[i - 1].at <= h[i].at
  {
    var past := h[..|h| - 1];
    if i < |past| {
      EntryOf(first, past, i);
      assert past[..i] == h[..i] && past[..i + 1] == h[..i + 1];
    } else {
      assert h[..i + 1] == h;
    }
  }

  // --------------------------------------------------------------------
  // One restart, two dequeues

  function Restarts(h: History): nat {
    if h == [] then 0 else
    Restarts(h[..|h| - 1]) + (if h[|h| - 1].change.BootstrapRestart? then 1 else 0)
  }

  /** How often the row went from Pending to Dequeued. */
  function Dequeues(h: History): nat {
    if h == [] then 0 else
    var e := h[|h| - 1];
    Dequeues(h[..|h| - 1]) + (if e.before.status.Pending? && e.after.status.Dequeued? then 1 else 0)
  }

  lemma {:induction false} RestartsCounted(h: History)
    ensures RestartRecorded(h) <==> Restarts(h) > 0
  {
    if h != [] {
      var past := h[..|h| - 1];
      RestartsCounted(past);
      if RestartRecorded(h) {
        var i :| 0 <= i < |h| && h[i].change.BootstrapRestart?;
        assert i < |past| ==> past[i] == h[i];
      }
      if RestartRecorded(past) {
        var i :| 0 <= i < |past| && past[i].change.BootstrapRestart?;
        assert h[i] == past[i];
      }
      if h[|h| - 1].change.BootstrapRestart? { assert RestartRecorded(h); }
    }
  }

  /**
    Under any number of controllers, one bootstrap restart at most is recorded
    over the whole history of a run, and the row goes from Pending to Dequeued at
    most twice: once more than it was restarted.
   */
  lemma {:induction false} AtMostOneRestart(first: Row, h: History)
    requires Legal(first, h)
    ensures Restarts(h) <= 1
    ensures Dequeues(h) + (if RowAfter(first, h).status.Pending? then 1 else 0) <= 1 + Restarts(h)
    ensures Dequeues(h) <= 2
  {
    if h != [] {
      var past := h[..|h| - 1];
      AtMostOneRestart(first, past);
      RestartsCounted(past);
    }
  }

  // --------------------------------------------------------------------
  // What is never taken back

  /** Its worker has started or sent a heartbeat, or it was canceled. */
  predicate Alive(row: Row) {
    row.startedAt.Some? || row.heartbeatAt.Some? || row.canceledAt.Some?
  }

  lemma {:induction false} SignsPersist(first: Row, h: History, i: nat, j: nat)
    requires Legal(first, h) && i <= j < |h|
    ensures Alive(h[i].after) ==> Alive(h[j].after)
    ensures h[i].after.cancelRequestedAt.Some? ==> h[j].after.cancelRequestedAt.Some?
    decreases j
  {
    if i < j {
      SignsPersist(first, h, i, j - 1);
      EntryOf(first, h, j);
    }
  }

  /**
    Worker-exit and timeout handling never change a run that has started, sent a
    heartbeat or been canceled, however the steps interleave.
   */
  lemma AliveIsLeftAlone(first: Row, h: History, i: nat, j: nat)
    requires Legal(first, h) && i < j < |h| && Alive(h[i].after)
    ensures !h[j].change.BootstrapRestart? && !h[j].change.BootstrapFailure?
  {
    SignsPersist(first, h, i, j - 1);
    EntryOf(first, h, j);
  }

  /** Once a cancel is requested, nothing dispatches or reclaims the run. */
  lemma NoClaimAfterCancelRequest(first: Row, h: History, i: nat, j: nat)
    requires Legal(first, h) && i < j < |h| && h[i].after.cancelRequestedAt.Some?
    ensures !h[j].change.DispatchClaim? && !h[j].change.OrphanClaim?
  {
    SignsPersist(first, h, i, j - 1);
    EntryOf(first, h, j);
  }

  /** A Dequeued row always carries its lease time, so that the orphan scan can find it. */
  lemma {:induction false} DequeuedHasLease(first: Row, h: History)
    requires Legal(first, h)
    ensures RowAfter(first, h).status.Dequeued? ==> RowAfter(first, h).dequeuedAt.Some?
  {
    if h != [] {
      DequeuedHasLease(first, h[..|h| - 1]);
    }
  }

  /** The last entry was this change: the row is what it made of the row before. */
  predicate Ends(first: Row, h: History, change: Change) {
    Legal(first, h) && h != [] && h[|h| - 1].change == change
  }

  /**
    A restarted row waits for the recovery and carries nothing of its first
    attempt: no lease, no readiness to time out, no sign of life.
   */
  lemma RestartedRowIsFresh(first: Row, h: History, now: int)
    requires Ends(first, h, BootstrapRestart)
    ensures var row, before := RowAfter(first, h), h[|h| - 1].before;
            && FoundByRecovery(row, h) && row.dequeuedAt.None? && row.provisionReadyAt.None?
            && row.startedAt.None? && row.heartbeatAt.None? && !BootstrapOverdue(row, now)
            && row.createdAt == before.createdAt && row.cancelRequestedAt == before.cancelRequestedAt
            && row.waitingForProvider == before.waitingForProvider
  {
    assert h[|h| - 1].change.BootstrapRestart?;
  }

  /** A run that failed to bootstrap is Failed, and no controller changes it then, whatever row it has loaded. */
  lemma FailureIsFinal(first: Row, h: History, snapshot: Row, now: int)
    requires Ends(first, h, BootstrapFailure)
    ensures var row := RowAfter(first, h);
            && row.status == Failed
            && !Allowed(row, h, DispatchClaim(snapshot), now) && !Allowed(row, h, BootstrapRestart, now)
            && !Allowed(row, h, BootstrapFailure, now) && !Allowed(row, h, OrphanClaim, now)
  {
  }

  /** A claim makes the row Dequeued with a new lease, and leaves the rest. */
  lemma ClaimedRowIs(first: Row, h: History)
    requires Legal(first, h) && h != [] && (h[|h| - 1].change.DispatchClaim? || h[|h| - 1].change.OrphanClaim?)
    ensures var e := h[|h| - 1];
            RowAfter(first, h) == e.before.(status := Dequeued, dequeuedAt := Some(e.at))
  {
  }

  /**
    The scan takes a Pending row from five minutes after its creation until a day
    after it, unless it waits for its provider or has a cancel.
   */
  lemma PendingEligibleIff(row: Row, age: nat)
    requires row.status.Pending?
    ensures OrphanEligible(row, row.createdAt + age) <==>
              300_000 < age < 86_400_000 && !row.waitingForProvider && NoCancel(row)
  {
  }

  /** And a Dequeued one when its lease is older than two spawns and a scan may take: 959 seconds. */
  lemma DequeuedEligibleIff(row: Row, age: nat)
    requires row.status.Dequeued? && row.dequeuedAt.Some?
    ensures OrphanEligible(row, row.dequeuedAt.value + age) <==> 959_000 < age && NoCancel(row)
  {
  }

  /** No other row is taken. */
  lemma OthersAreNotEligible(row: Row, now: int)
    requires !row.status.Pending? && !row.status.Dequeued?
    ensures !OrphanEligible(row, now)
  {
  }

  // --------------------------------------------------------------------
  // The spacing of orphan claims

  predicate NoRestartBetween(h: History, i: nat, j: nat)
    requires i <= j <= |h|
  {
    forall k :: i <= k < j ==> !h[k].change.BootstrapRestart?
  }

  /** A claim's lease lasts, and is only renewed, until a restart clears it. */
  lemma {:induction false} LeaseLasts(first: Row, h: History, i: nat, j: nat)
    requires Legal(first, h) && i <= j < |h| && h[i].change.OrphanClaim? && NoRestartBetween(h, i, j + 1)
    ensures !h[j].after.status.Pending? && h[j].after.dequeuedAt.Some?
    ensures h[i].at <= h[j].after.dequeuedAt.value <= h[j].at
    decreases j
  {
    EntryOf(first, h, j);
    if i < j {
      LeaseLasts(first, h, i, j - 1);
    }
  }

  /** Two orphan claims without a restart between them are more than the threshold apart. */
  lemma ClaimsAreSpaced(first: Row, h: History, i: nat, j: nat)
    requires Legal(first, h) && i < j < |h|
    requires h[i].change.OrphanClaim? && h[j].change.OrphanClaim? && NoRestartBetween(h, i, j)
    ensures h[i].at + ORPHANED_AFTER_DEQUEUE_THRESHOLD_MS < h[j].at
  {
    LeaseLasts(first, h, i, j - 1);
    EntryOf(first, h, j);
  }

  predicate ClaimIn(e: Entry, lo: int, hi: int) {
    e.change.OrphanClaim? && lo <= e.at <= hi
  }

  /** How many orphan claims fall in a span of time. */
  function Claims(h: History, lo: int, hi: int): nat {
    if h == [] then 0 else
    Claims(h[..|h| - 1], lo, hi) + (if ClaimIn(h[|h| - 1], lo, hi) then 1 else 0)
  }

  /** The position of the last of them, or -1. */
  function LastClaim(h: History, lo: int, hi: int): (n: int)
    ensures -1 <= n < |h|
    ensures 0 <= n ==> ClaimIn(h[n], lo, hi)
    ensures n == -1 <==> Claims(h, lo, hi) == 0
  {
    if h == [] then -1 else if ClaimIn(h[|h| - 1], lo, hi) then |h| - 1 else LastClaim(h[..|h| - 1], lo, hi)
  }

  lemma {:induction false} RestartsSplit(h: History, i: nat)
    requires i <= |h|
    ensures Restarts(h[..i]) <= Restarts(h)
    ensures Restarts(h[..i]) == Restarts(h) ==> NoRestartBetween(h, i, |h|)
    decreases |h|
  {
    if i < |h| {
      var past := h[..|h| - 1];
      RestartsSplit(past, i);
      assert past[..i] == h[..i];
      assert forall k :: i <= k < |past| ==> past[k] == h[k];
    } else {
      assert h[..i] == h;
    }
  }

  /** All but one of the claims, and one more for the restart, take a threshold each. */
  lemma {:induction false} ClaimsTakeTime(first: Row, h: History, lo: int, hi: int)
    requires Legal(first, h) && Claims(h, lo, hi) > 0
    ensures var l := LastClaim(h, lo, hi);
            (Claims(h, lo, hi) - 1 - Restarts(h[..l])) * ORPHANED_AFTER_DEQUEUE_THRESHOLD_MS <= h[l].at - lo
  {
    var past, j := h[..|h| - 1], |h| - 1;
    if !ClaimIn(h[j], lo, hi) {
      ClaimsTakeTime(first, past, lo, hi);
      var l := LastClaim(past, lo, hi);
      assert past[..l] == h[..l];
    } else if Claims(past, lo, hi) > 0 {
      ClaimsTakeTime(first, past, lo, hi);
      var l := LastClaim(past, lo, hi);
      assert past[..l] == h[..l] && past[l] == h[l];
      RestartsSplit(past, l);
      AtMostOneRestart(first, past);
      if Restarts(past[..l]) == Restarts(past) {
        assert forall k :: l <= k < j ==> past[k] == h[k];
        ClaimsAreSpaced(first, h, l, j);
      } else {
        AtOrAfter(first, h, l, j);
      }
    }
  }

  lemma {:induction false} AtOrAfter(first: Row, h: History, i: nat, j: nat)
    requires Legal(first, h) && i <= j < |h|
    ensures h[i].at <= h[j].at
    decreases j
  {
    if i < j {
      AtOrAfter(first, h, i, j - 1);
      EntryOf(first, h, j);
    }
  }

  /** In any span of time, a run is orphan-claimed at most span / threshold + 2 times. */
  lemma OrphanClaimsInSpan(first: Row, h: History, lo: int, hi: int)
    requires Legal(first, h) && lo <= hi
    ensures Claims(h, lo, hi) <= (hi - lo) / ORPHANED_AFTER_DEQUEUE_THRESHOLD_MS + 2
  {
    if Claims(h, lo, hi) > 0 {
      ClaimsTakeTime(first, h, lo, hi);
      var l := LastClaim(h, lo, hi);
      RestartsSplit(h, l);
      AtMostOneRestart(first, h);
    }
  }

  /** The bound is met: a dispatched run's restart clears the lease, so two claims can fall on one instant. */
  lemma SpanBoundIsReached(first: Row, now: int)
    requires Created(first) && NoCancel(first) && first.status.Pending? && OrphanEligible(first, now)
    ensures var a := Extend(first, [], OrphanClaim, now);
            var b := Extend(first, a, DispatchClaim(RowAfter(first, a)), now);
            var c := Extend(first, b, BootstrapRestart, now);
            var d := Extend(first, c, OrphanClaim, now);
            Legal(first, d) && Claims(d, now, now) == 2
  {
    var a := Extend(first, [], OrphanClaim, now);
    var dispatch := DispatchClaim(RowAfter(first, a));
    var b := Extend(first, a, dispatch, now);
    var c := Extend(first, b, BootstrapRestart, now);
    var d := Extend(first, c, OrphanClaim, now);
    ExtendIsLegal(first, [], OrphanClaim, now);
    ExtendIsLegal(first, a, dispatch, now);
    ExtendIsLegal(first, b, BootstrapRestart, now);
    ExtendIsLegal(first, c, OrphanClaim, now);
    assert d[..3] == c && c[..2] == b && b[..1] == a && a[..0] == [];
    assert Claims(a, now, now) == 1 && Claims(b, now, now) == 1 && Claims(c, now, now) == 1;
  }
}

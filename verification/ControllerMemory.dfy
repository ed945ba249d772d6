/**
  What one controller keeps in memory about spawns: the spawns in flight, the
  bootstrap restarts waiting for a slot (a Map, so in insertion order), and the
  restarts whose cleanup is not over. The class updates them in place; each
  method equals the function on values that it is named after.
 */
module ControllerMemory {
  import opened Prelude
  import T = TaskRun

  const MAX_CONCURRENT_SPAWNS := 10

  /** `claim` is the position in the run's history of the successful compare-and-set. */
  datatype Phase = Claiming | Claimed(claim: nat) | Dispatched(claim: nat)

  /** `origin` is the position of the orphan claim that the spawn was started for, if it was. */
  datatype Spawn = Spawn(snapshot: T.Row, phase: Phase, origin: Option<nat>)

  datatype Waiting = Waiting(run: nat, row: T.Row)

  datatype Memory = Memory(
    running: bool,
    inFlight: map<nat, Spawn>,
    pending: seq<Waiting>,
    awaiting: set<nat>)

  const FRESH: Memory := Memory(true, map[], [], {})

  ghost predicate Valid(m: Memory) {
    && |m.inFlight| <= MAX_CONCURRENT_SPAWNS
    && (forall i, j :: 0 <= i < j < |m.pending| ==> m.pending[i].run != m.pending[j].run)
  }

  function SpawnInBackground(m: Memory, run: nat, row: T.Row, origin: Option<nat>): (Memory, bool) {
    if !m.running || run in m.inFlight || |m.inFlight| >= MAX_CONCURRENT_SPAWNS then (m, false)
    else (m.(inFlight := m.inFlight[run := Spawn(row, Claiming, origin)]), true)
  }

  /** Map.set: an existing key keeps its place. */
  function SetPending(pending: seq<Waiting>, run: nat, row: T.Row): seq<Waiting> {
    if pending == [] then [Waiting(run, row)]
    else if pending[0].run == run then [Waiting(run, row)] + pending[1..]
    else [pending[0]] + SetPending(pending[1..], run, row)
  }

  function RestartRow(row: T.Row): T.Row {
    row.(status := T.Pending, dequeuedAt := None, provisionReadyAt := None)
  }

  function ScheduleRestart(m: Memory, run: nat, row: T.Row): Memory {
    var freed := m.(awaiting := m.awaiting - {run});
    var (spawned, ok) := SpawnInBackground(freed, run, RestartRow(row), None);
    if ok then spawned else freed.(pending := SetPending(freed.pending, run, RestartRow(row)))
  }

  /** The head of the main loop: the oldest waiting restart, if there is room for it. */
  function TakePending(m: Memory): Memory {
    if m.pending == [] || |m.inFlight| >= MAX_CONCURRENT_SPAWNS || m.pending[0].run in m.inFlight then m else
    var w := m.pending[0];
    var rest := m.(pending := m.pending[1..]);
    var (spawned, ok) := SpawnInBackground(rest, w.run, w.row, None);
    if ok then spawned else rest.(pending := SetPending(rest.pending, w.run, w.row))
  }

  function SpawnEnds(m: Memory, run: nat): Memory {
    m.(inFlight := m.inFlight - {run})
  }

  function Runs(pending: seq<Waiting>): set<nat> {
    set w | w in pending :: w.run
  }

  /** Map.set replaces the first entry of the run in place, or adds one at the end. */
  lemma {:induction false} SetPendingAt(pending: seq<Waiting>, n: nat, run: nat, row: T.Row)
    requires n <= |pending| && forall k :: 0 <= k < n ==> pending[k].run != run
    ensures n == |pending| ==> SetPending(pending, run, row) == pending + [Waiting(run, row)]
    ensures n < |pending| && pending[n].run == run ==> SetPending(pending, run, row) == pending[n := Waiting(run, row)]
  {
    if n > 0 {
      SetPendingAt(pending[1..], n - 1, run, row);
      assert pending == [pending[0]] + pending[1..];
    }
  }

  lemma {:induction false} FindRun(pending: seq<Waiting>, run: nat) returns (n: nat)
    ensures n <= |pending| && (n < |pending| ==> pending[n].run == run)
    ensures forall k :: 0 <= k < n ==> pending[k].run != run
  {
    if pending == [] || pending[0].run == run { return 0; }
    n := FindRun(pending[1..], run);
    n := n + 1;
    assert forall k :: 1 <= k < n ==> pending[k] == pending[1..][k - 1];
  }

  lemma SetPendingAdds(pending: seq<Waiting>, run: nat, row: T.Row)
    requires forall i, j :: 0 <= i < j < |pending| ==> pending[i].run != pending[j].run
    ensures var r := SetPending(pending, run, row);
            && Waiting(run, row) in r
            && Runs(r) == Runs(pending) + {run}
            && (forall i, j :: 0 <= i < j < |r| ==> r[i].run != r[j].run)
  {
    hide SetPending;
    var k := FindRun(pending, run);
    SetPendingAt(pending, k, run, row);
    var r, w := SetPending(pending, run, row), Waiting(run, row);
    if k < |pending| {
      assert r[k] == w && pending[k] in pending;
      assert forall i :: 0 <= i < |pending| && i != k ==> r[i] == pending[i];
    } else {
      assert r[|pending|] == w;
      assert forall i :: 0 <= i < |pending| ==> r[i] == pending[i];
    }
  }

  lemma RunsSplit(pending: seq<Waiting>)
    requires pending != []
    ensures Runs(pending) == {pending[0].run} + Runs(pending[1..])
  {
  }

  lemma SizeAfterPut(m: map<nat, Spawn>, run: nat, s: Spawn)
    ensures |m[run := s]| <= |m| + 1
    ensures run in m ==> |m[run := s]| == |m|
  {
  }

  lemma SizeAfterRemove(m: map<nat, Spawn>, run: nat)
    ensures |m - {run}| <= |m|
  {
  }

  /** At most ten spawns in flight, one per run, and no restart waiting twice: every step keeps it. */
  lemma SpawnKeepsValid(m: Memory, run: nat, row: T.Row, origin: Option<nat>)
    requires Valid(m)
    ensures Valid(SpawnInBackground(m, run, row, origin).0)
  {
    SizeAfterPut(m.inFlight, run, Spawn(row, Claiming, origin));
  }

  lemma ScheduleKeepsValid(m: Memory, run: nat, row: T.Row)
    requires Valid(m)
    ensures Valid(ScheduleRestart(m, run, row))
  {
    SpawnKeepsValid(m.(awaiting := m.awaiting - {run}), run, RestartRow(row), None);
    SetPendingAdds(m.pending, run, RestartRow(row));
  }

  lemma TakeKeepsValid(m: Memory)
    requires Valid(m)
    ensures Valid(TakePending(m))
  {
    if m.pending != [] {
      var w := m.pending[0];
      SpawnKeepsValid(m.(pending := m.pending[1..]), w.run, w.row, None);
      SetPendingAdds(m.pending[1..], w.run, w.row);
    }
  }

  lemma SpawnStepsKeepValid(m: Memory, run: nat, s: Spawn)
    requires Valid(m)
    ensures Valid(SpawnEnds(m, run))
    ensures run in m.inFlight ==> Valid(m.(inFlight := m.inFlight[run := s]))
  {
  }

  /** A scheduled restart is in flight or waiting, and no waiting run is dropped. */
  lemma ScheduledIsKept(m: Memory, run: nat, row: T.Row)
    requires Valid(m)
    ensures var r := ScheduleRestart(m, run, row); run in r.inFlight || run in Runs(r.pending)
    ensures Runs(m.pending) <= Runs(ScheduleRestart(m, run, row).pending)
    ensures m.inFlight.Keys <= ScheduleRestart(m, run, row).inFlight.Keys
  {
    hide SetPending, RestartRow, Runs;
    SetPendingAdds(m.pending, run, RestartRow(row));
  }

  /** Serving the oldest waiting run drops none either. */
  lemma WaitingIsKept(m: Memory)
    requires Valid(m)
    ensures var r := TakePending(m); Runs(m.pending) <= r.inFlight.Keys + Runs(r.pending)
  {
    hide SetPending, Runs;
    if m.pending != [] {
      var w := m.pending[0];
      SetPendingAdds(m.pending[1..], w.run, w.row);
      RunsSplit(m.pending);
    }
  }

  /** A spawn begins exactly when the controller runs, has room, and has none of this run; it knows its row. */
  lemma SpawnStartsIff(m: Memory, run: nat, row: T.Row, origin: Option<nat>)
    ensures var (r, started) := SpawnInBackground(m, run, row, origin);
            && (started <==> m.running && |m.inFlight| < 10 && run !in m.inFlight)
            && (started ==> run in r.inFlight && r.inFlight[run] == Spawn(row, Claiming, origin))
            && (started ==> r.inFlight.Keys == m.inFlight.Keys + {run} && r.pending == m.pending)
            && (!started ==> r == m)
  {
  }

  /** With room the oldest waiting run is spawned, and the others wait on in their order. */
  lemma OldestIsServed(m: Memory)
    requires m.running && m.pending != [] && |m.inFlight| < 10 && m.pending[0].run !in m.inFlight
    ensures var r := TakePending(m);
            && r.pending == m.pending[1..] && m.pending[0].run in r.inFlight
            && r.inFlight[m.pending[0].run] == Spawn(m.pending[0].row, Claiming, None)
  {
  }

  /** With room a scheduled restart is spawned at once, from a row that reads as restarted. */
  lemma ScheduledIsSpawned(m: Memory, run: nat, row: T.Row)
    requires m.running && |m.inFlight| < 10 && run !in m.inFlight
    ensures var r := ScheduleRestart(m, run, row);
            && run in r.inFlight && run !in r.awaiting && r.pending == m.pending
            && r.inFlight[run].phase.Claiming? && r.inFlight[run].snapshot.status == T.Pending
            && r.inFlight[run].snapshot.dequeuedAt.None? && r.inFlight[run].snapshot.provisionReadyAt.None?
            && r.inFlight[run].snapshot.cancelRequestedAt == row.cancelRequestedAt
            && r.inFlight[run].snapshot.canceledAt == row.canceledAt
  {
  }

  /** The spawn of `run` has made the claim at position `n`, or was started for it. */
  predicate Holds(m: Memory, run: nat, n: nat) {
    && run in m.inFlight
    && ((!m.inFlight[run].phase.Claiming? && m.inFlight[run].phase.claim == n) || m.inFlight[run].origin == Some(n))
  }

  /** Starting spawns neither makes nor ends a claim. */
  lemma ScheduleKeepsHeld(m: Memory, run: nat, row: T.Row)
    ensures forall x, n :: Holds(ScheduleRestart(m, run, row), x, n) <==> Holds(m, x, n)
    ensures forall x :: x in m.inFlight ==>
              x in ScheduleRestart(m, run, row).inFlight && ScheduleRestart(m, run, row).inFlight[x] == m.inFlight[x]
    ensures forall x :: x in ScheduleRestart(m, run, row).inFlight && x !in m.inFlight ==>
              ScheduleRestart(m, run, row).inFlight[x].phase.Claiming?
  {
  }

  lemma TakeKeepsHeld(m: Memory)
    ensures forall x, n :: Holds(TakePending(m), x, n) <==> Holds(m, x, n)
    ensures forall x :: x in m.inFlight ==> x in TakePending(m).inFlight && TakePending(m).inFlight[x] == m.inFlight[x]
    ensures forall x :: x in TakePending(m).inFlight && x !in m.inFlight ==> TakePending(m).inFlight[x].phase.Claiming?
  {
  }

  const NO_ROW: T.Row := T.Row(T.Pending, 0, None, None, None, None, None, None, false)

  class BaseController {
    var isRunning: bool
    var inFlightSpawns: map<nat, Spawn>
    var pendingWorkerBootstrapRestarts: seq<Waiting>
    var workerBootstrapRestartsAwaitingCleanup: set<nat>

    constructor ()
      ensures View() == FRESH
    {
      isRunning, inFlightSpawns := true, map[];
      pendingWorkerBootstrapRestarts, workerBootstrapRestartsAwaitingCleanup := [], {};
    }

    ghost function View(): Memory
      reads this
    {
      Memory(isRunning, inFlightSpawns, pendingWorkerBootstrapRestarts, workerBootstrapRestartsAwaitingCleanup)
    }

    method SpawnWorkerInBackground(run: nat, row: T.Row, origin: Option<nat>) returns (started: bool)
      requires Valid(View())
      modifies this
      ensures Valid(View()) && (View(), started) == SpawnInBackground(old(View()), run, row, origin)
    {
      SpawnKeepsValid(View(), run, row, origin);
      if !isRunning { return false; }
      if run in inFlightSpawns { return false; }
      if |inFlightSpawns| >= MAX_CONCURRENT_SPAWNS { return false; }
      inFlightSpawns := inFlightSpawns[run := Spawn(row, Claiming, origin)];
      return true;
    }

    method PutPending(run: nat, row: T.Row)
      modifies this`pendingWorkerBootstrapRestarts
      ensures pendingWorkerBootstrapRestarts == SetPending(old(pendingWorkerBootstrapRestarts), run, row)
    {
      hide SetPending;
      var before, i := pendingWorkerBootstrapRestarts, 0;
      while i < |before|
        invariant 0 <= i <= |before| && pendingWorkerBootstrapRestarts == before
        invariant forall k :: 0 <= k < i ==> before[k].run != run
      {
        SetPendingAt(before, i, run, row);
        if before[i].run == run {
          pendingWorkerBootstrapRestarts := before[i := Waiting(run, row)];
          return;
        }
        i := i + 1;
      }
      SetPendingAt(before, i, run, row);
      pendingWorkerBootstrapRestarts := before + [Waiting(run, row)];
    }

    method ScheduleWorkerBootstrapRestart(run: nat, row: T.Row)
      requires Valid(View())
      modifies this
      ensures Valid(View()) && View() == ScheduleRestart(old(View()), run, row)
    {
      ScheduleKeepsValid(View(), run, row);
      workerBootstrapRestartsAwaitingCleanup := workerBootstrapRestartsAwaitingCleanup - {run};
      var restartRun := RestartRow(row);
      if !isRunning {
        PutPending(run, restartRun);
        return;
      }
      var started := SpawnWorkerInBackground(run, restartRun, None);
      if started { return; }
      PutPending(run, restartRun);
    }

    /** The part of a loop iteration that serves a waiting restart. */
    method ServePendingRestart() returns (served: bool)
      requires Valid(View())
      modifies this
      ensures Valid(View()) && View() == TakePending(old(View()))
      ensures served ==> |old(pendingWorkerBootstrapRestarts)| == |pendingWorkerBootstrapRestarts| + 1
    {
      TakeKeepsValid(View());
      if pendingWorkerBootstrapRestarts == [] { return false; }
      var w := pendingWorkerBootstrapRestarts[0];
      if |inFlightSpawns| < MAX_CONCURRENT_SPAWNS && w.run !in inFlightSpawns {
        pendingWorkerBootstrapRestarts := pendingWorkerBootstrapRestarts[1..];
        served := SpawnWorkerInBackground(w.run, w.row, None);
        if !served { PutPending(w.run, w.row); }
        return;
      }
      return false;
    }

    /** The last step of every spawn, however it ended. */
    method SpawnSettled(run: nat)
      requires Valid(View())
      modifies this`inFlightSpawns
      ensures Valid(View()) && View() == SpawnEnds(old(View()), run)
    {
      SizeAfterRemove(inFlightSpawns, run);
      inFlightSpawns := inFlightSpawns - {run};
    }
  }
}

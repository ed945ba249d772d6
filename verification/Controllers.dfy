/**
  Any number of controllers over one database. Each action is one atomic piece of
  a controller's work (a transaction, or the code between two awaits), a step of
  the environment on a run, or the passing of time; controllers may start, stop
  and crash at any point.
 */
module Controllers {
  import opened Prelude
  import T = TaskRun
  import M = ControllerMemory

  /** The run that the main loop has popped or orphan-claimed and not spawned yet. */
  datatype Hand = Hand(run: nat, row: T.Row, claim: Option<nat>)

  datatype Controller = Controller(memory: M.Memory, hand: Option<Hand>)

  /** What has become of a successful claim of a run. */
  datatype Fate =
    | InFlight(c: nat)   // the spawn of controller c that made it, or was started for it, is running
    | InHand(c: nat)     // orphan-claimed by controller c, not handed to a spawn yet
    | Ended              // the dispatch attempt is complete
    | Abandoned          // its controller was stopped between the claim and the dispatch
    | Refused            // orphan-claimed, but the controller took no spawn
    | Lost               // the controller crashed

  /** A claim is named by its run and its position in the run's history. */
  type Claim = (nat, nat)

  datatype Db = Db(first: map<nat, T.Row>, history: map<nat, T.History>)

  datatype World = World(
    now: int,
    db: Db,
    controllers: map<nat, Controller>,
    fate: map<Claim, Fate>,
    dispatched: set<Claim>)

  datatype Action =
    | Start(c: nat)
    | Stop(c: nat)
    | Crash(c: nat)
    | Pop(c: nat, run: nat)
    | OrphanScan(c: nat, run: nat)
    | SpawnHand(c: nat)
    | ServePending(c: nat)
    | ClaimRun(c: nat, run: nat)
    | DispatchToProvider(c: nat, run: nat)
    | SpawnSettles(c: nat, run: nat)
    | WorkerExits(c: nat, run: nat)
    | ScheduleRestart(c: nat, run: nat, row: T.Row)
    | RecoverRestart(c: nat, run: nat)
    | TimeOutBootstrap(c: nat, run: nat)
    | Environment(run: nat, change: T.Change)
    | Tick(d: nat)

  predicate Known(w: World, run: nat) {
    run in w.db.first && run in w.db.history
  }

  function RowOf(db: Db, run: nat): T.Row
    requires run in db.first && run in db.history
  {
    T.RowAfter(db.first[run], db.history[run])
  }

  predicate IsEnvironment(change: T.Change) {
    !change.DispatchClaim? && !change.BootstrapRestart? && !change.BootstrapFailure? && !change.OrphanClaim?
  }

  predicate CanChange(w: World, run: nat, change: T.Change) {
    Known(w, run) && T.Allowed(RowOf(w.db, run), w.db.history[run], change, w.now)
  }

  /** One transaction, appended to the run's history. */
  function Commit(db: Db, run: nat, change: T.Change, now: int): Db
    requires run in db.first && run in db.history
  {
    db.(history := db.history[run := T.Extend(db.first[run], db.history[run], change, now)])
  }

  function PutController(w: World, c: nat, memory: M.Memory): World
    requires c in w.controllers
  {
    w.(controllers := w.controllers[c := w.controllers[c].(memory := memory)])
  }

  /** Forgets a spawn; the claim it had made and the one it was started for, if any, get their fate. */
  function EndSpawn(w: World, c: nat, run: nat, fate: Fate): World
    requires c in w.controllers && run in w.controllers[c].memory.inFlight
  {
    var s := w.controllers[c].memory.inFlight[run];
    var made := if s.phase.Claiming? then w.fate else w.fate[(run, s.phase.claim) := fate];
    var served := if s.origin.None? then made else made[(run, s.origin.value) := fate];
    PutController(w, c, M.SpawnEnds(w.controllers[c].memory, run)).(fate := served)
  }

  predicate Enabled(w: World, a: Action) {
    match a
    case Start(c) => c !in w.controllers
    case Stop(c) => c in w.controllers
    case Crash(c) => c in w.controllers
    case Pop(c, run) =>
      c in w.controllers && w.controllers[c].memory.running && w.controllers[c].hand.None? && Known(w, run)
    case OrphanScan(c, run) =>
      && c in w.controllers && w.controllers[c].memory.running && w.controllers[c].hand.None?
      && CanChange(w, run, T.OrphanClaim)
    case SpawnHand(c) => c in w.controllers && w.controllers[c].hand.Some?
    case ServePending(c) => c in w.controllers
    case ClaimRun(c, run) =>
      && c in w.controllers && run in w.controllers[c].memory.inFlight && Known(w, run)
      && w.controllers[c].memory.inFlight[run].phase.Claiming?
    case DispatchToProvider(c, run) =>
      && c in w.controllers && run in w.controllers[c].memory.inFlight
      && w.controllers[c].memory.inFlight[run].phase.Claimed?
    case SpawnSettles(c, run) => c in w.controllers && run in w.controllers[c].memory.inFlight
    case WorkerExits(c, run) => c in w.controllers && Known(w, run) && exists x :: x in w.dispatched && x.0 == run
    case ScheduleRestart(c, run, _) => c in w.controllers && run in w.controllers[c].memory.awaiting
    case RecoverRestart(c, run) =>
      && c in w.controllers && Known(w, run) && run !in w.controllers[c].memory.awaiting
      && T.FoundByRecovery(RowOf(w.db, run), w.db.history[run])
    case TimeOutBootstrap(c, run) =>
      && c in w.controllers && Known(w, run) && run !in w.controllers[c].memory.inFlight
      && T.BootstrapOverdue(RowOf(w.db, run), w.now)
    case Environment(run, change) => IsEnvironment(change) && CanChange(w, run, change)
    case Tick(_) => true
  }

  function Do(w: World, a: Action): World
    requires Enabled(w, a)
  {
    match a
    case Start(c) => w.(controllers := w.controllers[c := Controller(M.FRESH, None)])
    case Stop(c) => PutController(w, c, w.controllers[c].memory.(running := false))
    case Crash(c) =>
      w.(controllers := w.controllers - {c},
         fate := map x | x in w.fate :: if w.fate[x] == InFlight(c) || w.fate[x] == InHand(c) then Lost else w.fate[x])
    case Pop(c, run) =>
      w.(controllers := w.controllers[c := w.controllers[c].(hand := Some(Hand(run, RowOf(w.db, run), None)))])
    case OrphanScan(c, run) =>
      var n := |w.db.history[run]|;
      var db := Commit(w.db, run, T.OrphanClaim, w.now);
      w.(db := db, fate := w.fate[(run, n) := InHand(c)],
         controllers := w.controllers[c := w.controllers[c].(hand := Some(Hand(run, RowOf(db, run), Some(n))))])
    case SpawnHand(c) =>
      var h := w.controllers[c].hand.value;
      var (memory, ok) := M.SpawnInBackground(w.controllers[c].memory, h.run, h.row, h.claim);
      w.(controllers := w.controllers[c := Controller(memory, None)],
         fate := if h.claim.None? then w.fate
                 else w.fate[(h.run, h.claim.value) := if ok then InFlight(c) else Refused])
    case ServePending(c) => PutController(w, c, M.TakePending(w.controllers[c].memory))
    case ClaimRun(c, run) =>
      var m := w.controllers[c].memory;
      var snapshot := m.inFlight[run].snapshot;
      if !CanChange(w, run, T.DispatchClaim(snapshot)) then EndSpawn(w, c, run, Ended) else
      var n := |w.db.history[run]|;
      var claimed := m.(inFlight := m.inFlight[run := m.inFlight[run].(phase := M.Claimed(n))]);
      PutController(w, c, claimed)
        .(db := Commit(w.db, run, T.DispatchClaim(snapshot), w.now), fate := w.fate[(run, n) := InFlight(c)])
    case DispatchToProvider(c, run) =>
      var m := w.controllers[c].memory;
      var s := m.inFlight[run];
      if !m.running then EndSpawn(w, c, run, Abandoned) else
      PutController(w, c, m.(inFlight := m.inFlight[run := s.(phase := M.Dispatched(s.phase.claim))]))
        .(dispatched := w.dispatched + {(run, s.phase.claim)})
    case SpawnSettles(c, run) => EndSpawn(w, c, run, Ended)
    case WorkerExits(c, run) =>
      if CanChange(w, run, T.BootstrapRestart) then
        var m := w.controllers[c].memory;
        PutController(w, c, m.(awaiting := m.awaiting + {run})).(db := Commit(w.db, run, T.BootstrapRestart, w.now))
      else if CanChange(w, run, T.BootstrapFailure) then
        w.(db := Commit(w.db, run, T.BootstrapFailure, w.now))
      else w
    case ScheduleRestart(c, run, row) => PutController(w, c, M.ScheduleRestart(w.controllers[c].memory, run, row))
    case RecoverRestart(c, run) =>
      PutController(w, c, M.ScheduleRestart(w.controllers[c].memory, run, RowOf(w.db, run)))
    case TimeOutBootstrap(c, run) =>
      if CanChange(w, run, T.BootstrapFailure) then w.(db := Commit(w.db, run, T.BootstrapFailure, w.now)) else w
    case Environment(run, change) => w.(db := Commit(w.db, run, change, w.now))
    case Tick(d) => w.(now := w.now + d)
  }

  // --------------------------------------------------------------------
  // Invariants

  /** The change that made the claim, if there is one at that place. */
  predicate IsDispatchClaim(db: Db, x: Claim) {
    x.0 in db.history && x.1 < |db.history[x.0]| && db.history[x.0][x.1].change.DispatchClaim?
  }

  predicate IsOrphanClaim(db: Db, x: Claim) {
    x.0 in db.history && x.1 < |db.history[x.0]| && db.history[x.0][x.1].change.OrphanClaim?
  }

  ghost predicate HistoriesLegal(db: Db, now: int) {
    db.first.Keys == db.history.Keys &&
    forall run :: run in db.first ==>
      T.Legal(db.first[run], db.history[run]) && T.Latest(db.first[run], db.history[run]) <= now
  }

  ghost predicate MemoriesValid(w: World) {
    forall c :: c in w.controllers ==> M.Valid(w.controllers[c].memory)
  }

  /** A claim that a controller's spawn of the run has made, or was started for. */
  predicate Holds(w: World, c: nat, x: Claim) {
    c in w.controllers && M.Holds(w.controllers[c].memory, x.0, x.1)
  }

  predicate HoldsInHand(w: World, c: nat, x: Claim) {
    c in w.controllers && w.controllers[c].hand.Some?
    && w.controllers[c].hand.value.run == x.0 && w.controllers[c].hand.value.claim == Some(x.1)
  }

  /** Every claim in a history has a fate, and the fates agree with the memories. */
  ghost predicate Accounted(w: World) {
    && (forall x :: IsDispatchClaim(w.db, x) ==>
          x in w.fate && !w.fate[x].InHand? && !w.fate[x].Refused?)
    && (forall x :: IsOrphanClaim(w.db, x) ==> x in w.fate)
    && (forall x, c :: x in w.fate && w.fate[x] == InFlight(c) ==> Holds(w, c, x))
    && (forall x, c :: Holds(w, c, x) ==> x in w.fate && w.fate[x] == InFlight(c))
    && (forall x, c :: x in w.fate && w.fate[x] == InHand(c) ==> HoldsInHand(w, c, x))
    && (forall x, c :: HoldsInHand(w, c, x) ==> x in w.fate && w.fate[x] == InHand(c) && IsOrphanClaim(w.db, x))
    && (forall x :: x in w.fate ==> IsDispatchClaim(w.db, x) || IsOrphanClaim(w.db, x))
  }

  /** A claim that a controller's spawn of the run has made itself. */
  predicate Made(w: World, c: nat, x: Claim) {
    c in w.controllers && var m := w.controllers[c].memory;
    x.0 in m.inFlight && !m.inFlight[x.0].phase.Claiming? && m.inFlight[x.0].phase.claim == x.1
  }

  predicate AwaitsDispatch(w: World, c: nat, x: Claim) {
    Made(w, c, x) && w.controllers[c].memory.inFlight[x.0].phase.Claimed?
  }

  /** Spawns claim by compare-and-set, only such a claim is dispatched, and only while it is held. */
  ghost predicate DispatchesClaimed(w: World) {
    && (forall x, c :: Made(w, c, x) ==> IsDispatchClaim(w.db, x))
    && (forall x :: x in w.dispatched ==> IsDispatchClaim(w.db, x))
    && (forall x, c :: AwaitsDispatch(w, c, x) ==> x !in w.dispatched)
  }

  ghost predicate Inv(w: World) {
    HistoriesLegal(w.db, w.now) && MemoriesValid(w) && Accounted(w) && DispatchesClaimed(w)
  }

  /** Claims stand where they were made, and a commit adds at most its own. */
  lemma CommitClaims(db: Db, run: nat, change: T.Change, now: int)
    requires run in db.first && run in db.history
    ensures var r := Commit(db, run, change, now);
            var x := (run, |db.history[run]|);
            && !IsDispatchClaim(db, x) && !IsOrphanClaim(db, x)
            && (forall y :: IsDispatchClaim(r, y) <==> IsDispatchClaim(db, y) || (y == x && change.DispatchClaim?))
            && (forall y :: IsOrphanClaim(r, y) <==> IsOrphanClaim(db, y) || (y == x && change.OrphanClaim?))
  {
  }

  lemma CommitKeepsLegal(db: Db, run: nat, change: T.Change, now: int)
    requires HistoriesLegal(db, now) && run in db.first
    requires T.Allowed(RowOf(db, run), db.history[run], change, now)
    ensures HistoriesLegal(Commit(db, run, change, now), now)
  {
    hide T.Legal, T.Allowed, T.Latest;
    T.ExtendIsLegal(db.first[run], db.history[run], change, now);
    LatestIsNow(db.first[run], db.history[run], change, now);
  }

  lemma LatestIsNow(first: T.Row, h: T.History, change: T.Change, now: int)
    ensures T.Latest(first, T.Extend(first, h, change, now)) == now
  {
  }

  lemma StepKeepsHistories(w: World, a: Action)
    requires Inv(w) && Enabled(w, a)
    ensures HistoriesLegal(Do(w, a).db, Do(w, a).now)
  {
    hide T.Legal, Accounted, DispatchesClaimed, MemoriesValid, T.Allowed, T.FoundByRecovery, M.TakePending;
    hide M.ScheduleRestart, M.SpawnInBackground;
    match a
    case OrphanScan(c, run) => CommitKeepsLegal(w.db, run, T.OrphanClaim, w.now);
    case ClaimRun(c, run) => {
      var change := T.DispatchClaim(w.controllers[c].memory.inFlight[run].snapshot);
      if CanChange(w, run, change) { CommitKeepsLegal(w.db, run, change, w.now); }
    }
    case WorkerExits(c, run) => {
      if CanChange(w, run, T.BootstrapRestart) { CommitKeepsLegal(w.db, run, T.BootstrapRestart, w.now); }
      if CanChange(w, run, T.BootstrapFailure) { CommitKeepsLegal(w.db, run, T.BootstrapFailure, w.now); }
    }
    case TimeOutBootstrap(c, run) =>
      if CanChange(w, run, T.BootstrapFailure) { CommitKeepsLegal(w.db, run, T.BootstrapFailure, w.now); }
    case Environment(run, change) => CommitKeepsLegal(w.db, run, change, w.now);
    case _ =>
  }

  lemma StepKeepsMemories(w: World, a: Action)
    requires MemoriesValid(w) && Enabled(w, a)
    ensures MemoriesValid(Do(w, a))
  {
    hide T.Legal, T.Allowed, M.Valid, T.FoundByRecovery, T.BootstrapOverdue, M.TakePending, M.ScheduleRestart;
    hide M.SpawnInBackground, M.SpawnEnds, T.Extend;
    FreshIsValid();
    forall c | c in w.controllers ensures M.Valid(w.controllers[c].memory) {}
    match a
    case SpawnHand(c) => {
      var h := w.controllers[c].hand.value;
      M.SpawnKeepsValid(w.controllers[c].memory, h.run, h.row, h.claim);
    }
    case ServePending(c) => M.TakeKeepsValid(w.controllers[c].memory);
    case ScheduleRestart(c, run, row) => M.ScheduleKeepsValid(w.controllers[c].memory, run, row);
    case RecoverRestart(c, run) => M.ScheduleKeepsValid(w.controllers[c].memory, run, RowOf(w.db, run));
    case Stop(c) => FlagsKeepValid(w.controllers[c].memory, false, {});
    case WorkerExits(c, run) => {
      var m := w.controllers[c].memory;
      FlagsKeepValid(m, m.running, m.awaiting + {run});
    }
    case ClaimRun(c, run) => {
      var m := w.controllers[c].memory;
      M.SpawnStepsKeepValid(m, run, m.inFlight[run].(phase := M.Claimed(|w.db.history[run]|)));
    }
    case DispatchToProvider(c, run) => {
      var m := w.controllers[c].memory;
      var s := m.inFlight[run];
      M.SpawnStepsKeepValid(m, run, s.(phase := M.Dispatched(s.phase.claim)));
    }
    case SpawnSettles(c, run) => {
      var m := w.controllers[c].memory;
      M.SpawnStepsKeepValid(m, run, m.inFlight[run]);
    }
    case _ =>
  }

  lemma FreshIsValid()
    ensures M.Valid(M.FRESH)
  {
  }

  lemma FlagsKeepValid(m: M.Memory, running: bool, awaiting: set<nat>)
    requires M.Valid(m)
    ensures M.Valid(m.(running := running)) && M.Valid(m.(awaiting := awaiting))
  {
  }

  /** Steps that neither make nor end a claim. */
  predicate IsQuiet(a: Action) {
    a.Start? || a.Stop? || a.Pop? || a.ServePending? || a.ScheduleRestart? || a.RecoverRestart? || a.Tick?
  }

  lemma QuietStepIs(w: World, a: Action)
    requires Enabled(w, a) && IsQuiet(a)
    ensures var r := Do(w, a);
            && r.db == w.db && r.fate == w.fate && r.dispatched == w.dispatched
            && (forall x, c :: Holds(r, c, x) <==> Holds(w, c, x))
            && (forall x, c :: HoldsInHand(r, c, x) <==> HoldsInHand(w, c, x))
            && (forall x, c :: Made(r, c, x) <==> Made(w, c, x))
            && (forall x, c :: AwaitsDispatch(r, c, x) <==> AwaitsDispatch(w, c, x))
  {
    hide T.Allowed, T.Legal, T.RestartRecorded, T.FoundByRecovery, T.BootstrapOverdue, T.RowAfter;
    hide M.TakePending, M.ScheduleRestart;
    if a.ServePending? || a.ScheduleRestart? || a.RecoverRestart? {
      var m := w.controllers[a.c].memory;
      M.TakeKeepsHeld(m);
      M.ScheduleKeepsHeld(m, if a.ServePending? then 0 else a.run,
                          if a.ScheduleRestart? then a.row
                          else if a.RecoverRestart? then RowOf(w.db, a.run)
                          else M.NO_ROW);
    }
  }

  lemma QuietStepAccounted(w: World, a: Action)
    requires Accounted(w) && DispatchesClaimed(w) && Enabled(w, a) && IsQuiet(a)
    ensures Accounted(Do(w, a)) && DispatchesClaimed(Do(w, a))
  {
    hide Do, Holds, HoldsInHand, Made, AwaitsDispatch, IsDispatchClaim, IsOrphanClaim, Enabled;
    QuietStepIs(w, a);
  }

  /** Transactions that claim nothing. */
  lemma OtherCommitIs(w: World, a: Action)
    requires Enabled(w, a) && (a.Environment? || a.WorkerExits? || a.TimeOutBootstrap?)
    ensures var r := Do(w, a);
            && r.fate == w.fate && r.dispatched == w.dispatched
            && (forall x :: IsDispatchClaim(r.db, x) <==> IsDispatchClaim(w.db, x))
            && (forall x :: IsOrphanClaim(r.db, x) <==> IsOrphanClaim(w.db, x))
            && (forall x, c :: Made(r, c, x) <==> Made(w, c, x))
            && (forall x, c :: AwaitsDispatch(r, c, x) <==> AwaitsDispatch(w, c, x))
            && (forall x, c :: Holds(r, c, x) <==> Holds(w, c, x))
            && (forall x, c :: HoldsInHand(r, c, x) <==> HoldsInHand(w, c, x))
  {
    hide T.Allowed, T.Legal, T.RestartRecorded, T.FoundByRecovery, T.BootstrapOverdue, T.RowAfter;
    var change := if a.Environment? then a.change
                  else if a.WorkerExits? && CanChange(w, a.run, T.BootstrapRestart) then T.BootstrapRestart
                  else T.BootstrapFailure;
    CommitClaims(w.db, a.run, change, w.now);
  }

  lemma OtherCommitAccounted(w: World, a: Action)
    requires Accounted(w) && DispatchesClaimed(w) && Enabled(w, a)
    requires a.Environment? || a.WorkerExits? || a.TimeOutBootstrap?
    ensures Accounted(Do(w, a)) && DispatchesClaimed(Do(w, a))
  {
    hide Do, Holds, HoldsInHand, Made, AwaitsDispatch, IsDispatchClaim, IsOrphanClaim, Enabled;
    OtherCommitIs(w, a);
  }

  lemma EndSpawnDispatched(w: World, c: nat, run: nat, fate: Fate)
    requires DispatchesClaimed(w)
    requires c in w.controllers && run in w.controllers[c].memory.inFlight
    ensures DispatchesClaimed(EndSpawn(w, c, run, fate))
  {
    var r := EndSpawn(w, c, run, fate);
    assert forall x, d :: Made(r, d, x) ==> Made(w, d, x);
    assert forall x, d :: AwaitsDispatch(r, d, x) ==> AwaitsDispatch(w, d, x);
  }

  lemma EndSpawnFates(w: World, c: nat, run: nat, fate: Fate)
    requires Accounted(w) && c in w.controllers && run in w.controllers[c].memory.inFlight
    ensures var r := EndSpawn(w, c, run, fate);
            && r.db == w.db && r.fate.Keys == w.fate.Keys
            && (forall x :: x in w.fate ==> r.fate[x] == if Holds(w, c, x) && x.0 == run then fate else w.fate[x])
  {
    hide IsDispatchClaim, IsOrphanClaim, HoldsInHand;
    var s := w.controllers[c].memory.inFlight[run];
    assert !s.phase.Claiming? ==> Holds(w, c, (run, s.phase.claim));
    assert s.origin.Some? ==> Holds(w, c, (run, s.origin.value));
  }

  lemma EndSpawnIs(w: World, c: nat, run: nat, fate: Fate)
    requires c in w.controllers && run in w.controllers[c].memory.inFlight
    ensures var r := EndSpawn(w, c, run, fate);
            && (forall x, d :: Holds(r, d, x) <==> Holds(w, d, x) && !(d == c && x.0 == run))
            && (forall x, d :: HoldsInHand(r, d, x) <==> HoldsInHand(w, d, x))
  {
  }

  lemma EndSpawnAccounted(w: World, c: nat, run: nat, fate: Fate)
    requires Accounted(w) && DispatchesClaimed(w) && (fate.Ended? || fate.Abandoned?)
    requires c in w.controllers && run in w.controllers[c].memory.inFlight
    ensures Accounted(EndSpawn(w, c, run, fate)) && DispatchesClaimed(EndSpawn(w, c, run, fate))
  {
    EndSpawnDispatched(w, c, run, fate);
    hide DispatchesClaimed, EndSpawn, Holds, HoldsInHand;
    EndSpawnFates(w, c, run, fate);
    EndSpawnIs(w, c, run, fate);
    assert forall x :: IsDispatchClaim(EndSpawn(w, c, run, fate).db, x) <==> IsDispatchClaim(w.db, x);
    assert forall x :: IsOrphanClaim(EndSpawn(w, c, run, fate).db, x) <==> IsOrphanClaim(w.db, x);
    hide IsDispatchClaim, IsOrphanClaim;
  }

  /** The compare-and-set matched: the spawn has a claim of its own. */
  lemma ClaimRunIs(w: World, a: Action)
    requires Enabled(w, a) && a.ClaimRun?
    requires CanChange(w, a.run, T.DispatchClaim(w.controllers[a.c].memory.inFlight[a.run].snapshot))
    ensures var c, r, mine := a.c, Do(w, a), (a.run, |w.db.history[a.run]|);
            && r.fate == w.fate[mine := InFlight(c)] && r.dispatched == w.dispatched
            && !IsDispatchClaim(w.db, mine) && !IsOrphanClaim(w.db, mine)
            && (forall x :: IsDispatchClaim(r.db, x) <==> IsDispatchClaim(w.db, x) || x == mine)
            && (forall x :: IsOrphanClaim(r.db, x) <==> IsOrphanClaim(w.db, x))
            && (forall x, d :: Made(r, d, x) <==> Made(w, d, x) || (d == c && x == mine))
            && (forall x, d :: AwaitsDispatch(r, d, x) ==> AwaitsDispatch(w, d, x) || x == mine)
            && (forall x, d :: Holds(r, d, x) <==> Holds(w, d, x) || (d == c && x == mine))
            && (forall x, d :: HoldsInHand(r, d, x) <==> HoldsInHand(w, d, x))
  {
    hide T.Allowed, T.Legal, T.RestartRecorded, T.FoundByRecovery, T.BootstrapOverdue, T.RowAfter;
    CommitClaims(w.db, a.run, T.DispatchClaim(w.controllers[a.c].memory.inFlight[a.run].snapshot), w.now);
  }

  lemma ClaimRunAccounted(w: World, a: Action)
    requires Accounted(w) && DispatchesClaimed(w) && Enabled(w, a) && a.ClaimRun?
    ensures Accounted(Do(w, a)) && DispatchesClaimed(Do(w, a))
  {
    hide T.Allowed, T.RowAfter, Holds, HoldsInHand, Made, AwaitsDispatch, IsDispatchClaim, IsOrphanClaim, EndSpawn;
    var m := w.controllers[a.c].memory;
    if !CanChange(w, a.run, T.DispatchClaim(m.inFlight[a.run].snapshot)) {
      EndSpawnAccounted(w, a.c, a.run, Ended);
    } else {
      ClaimRunIs(w, a);
    }
  }

  lemma DispatchAccounted(w: World, a: Action)
    requires Accounted(w) && DispatchesClaimed(w) && Enabled(w, a) && a.DispatchToProvider?
    ensures Accounted(Do(w, a)) && DispatchesClaimed(Do(w, a))
  {
    var c, run := a.c, a.run;
    var m := w.controllers[c].memory;
    if !m.running {
      EndSpawnAccounted(w, c, run, Abandoned);
      return;
    }
    var r := Do(w, a);
    var mine := (run, m.inFlight[run].phase.claim);
    hide IsDispatchClaim, IsOrphanClaim;
    assert Holds(w, c, mine) && Made(w, c, mine) && AwaitsDispatch(w, c, mine);
    assert forall x, d :: Made(r, d, x) <==> Made(w, d, x);
    assert forall x, d :: AwaitsDispatch(r, d, x) ==>
      AwaitsDispatch(w, d, x) && Holds(w, d, x) && !(d == c && x == mine);
    assert forall x, d :: Holds(r, d, x) <==> Holds(w, d, x);
    assert forall x, d :: HoldsInHand(r, d, x) <==> HoldsInHand(w, d, x);
    assert forall d :: Holds(w, d, mine) ==> d == c by {
      assert forall d :: Holds(w, d, mine) ==> w.fate[mine] == InFlight(d);
    }
  }

  lemma OrphanScanIs(w: World, a: Action)
    requires Enabled(w, a) && a.OrphanScan?
    ensures var c, r, mine := a.c, Do(w, a), (a.run, |w.db.history[a.run]|);
            && r.fate == w.fate[mine := InHand(c)] && r.dispatched == w.dispatched
            && !IsDispatchClaim(w.db, mine) && !IsOrphanClaim(w.db, mine)
            && (forall x :: IsDispatchClaim(r.db, x) <==> IsDispatchClaim(w.db, x))
            && (forall x :: IsOrphanClaim(r.db, x) <==> IsOrphanClaim(w.db, x) || x == mine)
            && (forall x, d :: Made(r, d, x) <==> Made(w, d, x))
            && (forall x, d :: AwaitsDispatch(r, d, x) <==> AwaitsDispatch(w, d, x))
            && (forall x, d :: Holds(r, d, x) <==> Holds(w, d, x))
            && (forall x, d :: HoldsInHand(r, d, x) <==> HoldsInHand(w, d, x) || (d == c && x == mine))
  {
    hide T.Allowed, T.Legal, T.RestartRecorded, T.FoundByRecovery, T.BootstrapOverdue, T.RowAfter;
    CommitClaims(w.db, a.run, T.OrphanClaim, w.now);
  }

  lemma OrphanScanAccounted(w: World, a: Action)
    requires Accounted(w) && DispatchesClaimed(w) && Enabled(w, a) && a.OrphanScan?
    ensures Accounted(Do(w, a)) && DispatchesClaimed(Do(w, a))
  {
    hide Do, Holds, HoldsInHand, Made, AwaitsDispatch, IsDispatchClaim, IsOrphanClaim, Enabled;
    OrphanScanIs(w, a);
  }

  lemma SpawnHandIs(w: World, a: Action)
    requires Enabled(w, a) && a.SpawnHand?
    ensures var c, r, h := a.c, Do(w, a), w.controllers[a.c].hand.value;
            var ok := M.SpawnInBackground(w.controllers[c].memory, h.run, h.row, h.claim).1;
            && r.db == w.db
            && (h.claim.None? ==> r.fate == w.fate)
            && (h.claim.Some? ==> r.fate == w.fate[(h.run, h.claim.value) := if ok then InFlight(c) else Refused])
            && (forall x, d :: Holds(r, d, x) <==>
                  Holds(w, d, x) || (ok && d == c && x.0 == h.run && h.claim == Some(x.1)))
            && (forall x, d :: HoldsInHand(r, d, x) <==> HoldsInHand(w, d, x) && d != c)
            && (h.claim.Some? ==> HoldsInHand(w, c, (h.run, h.claim.value)))
            && (forall x :: HoldsInHand(w, c, x) ==> x.0 == h.run && h.claim == Some(x.1))
  {
  }

  lemma SpawnHandAccounted(w: World, a: Action)
    requires Accounted(w) && Enabled(w, a) && a.SpawnHand?
    ensures Accounted(Do(w, a))
  {
    SpawnHandIs(w, a);
    hide Do, Holds, HoldsInHand, IsDispatchClaim, IsOrphanClaim, Enabled, M.SpawnInBackground;
  }

  lemma SpawnHandDispatched(w: World, a: Action)
    requires Accounted(w) && DispatchesClaimed(w) && Enabled(w, a) && a.SpawnHand?
    ensures DispatchesClaimed(Do(w, a))
  {
    var r := Do(w, a);
    assert forall x, d :: Made(r, d, x) <==> Made(w, d, x);
    assert forall x, d :: AwaitsDispatch(r, d, x) <==> AwaitsDispatch(w, d, x);
  }

  lemma CrashAccounted(w: World, a: Action)
    requires Accounted(w) && DispatchesClaimed(w) && Enabled(w, a) && a.Crash?
    ensures Accounted(Do(w, a)) && DispatchesClaimed(Do(w, a))
  {
    hide T.Allowed, T.Legal, T.RestartRecorded, T.FoundByRecovery, T.BootstrapOverdue, T.RowAfter;
    var r := Do(w, a);
    hide IsDispatchClaim, IsOrphanClaim;
    assert forall x, d :: Made(r, d, x) ==> Made(w, d, x);
    assert forall x, d :: AwaitsDispatch(r, d, x) ==> AwaitsDispatch(w, d, x);
    assert forall x, d :: Holds(r, d, x) <==> Holds(w, d, x) && d != a.c;
    assert forall x, d :: HoldsInHand(r, d, x) <==> HoldsInHand(w, d, x) && d != a.c;
  }

  lemma StepKeepsInv(w: World, a: Action)
    requires Inv(w) && Enabled(w, a)
    ensures Inv(Do(w, a))
  {
    StepKeepsHistories(w, a);
    StepKeepsMemories(w, a);
    hide HistoriesLegal, MemoriesValid, Accounted, DispatchesClaimed, Do;
    match a
    case Environment(_, _) => OtherCommitAccounted(w, a);
    case WorkerExits(_, _) => OtherCommitAccounted(w, a);
    case TimeOutBootstrap(_, _) => OtherCommitAccounted(w, a);
    case ClaimRun(_, _) => ClaimRunAccounted(w, a);
    case DispatchToProvider(_, _) => DispatchAccounted(w, a);
    case OrphanScan(_, _) => OrphanScanAccounted(w, a);
    case SpawnHand(_) =>
      SpawnHandAccounted(w, a);
      SpawnHandDispatched(w, a);
    case Crash(_) => CrashAccounted(w, a);
    case SpawnSettles(c, run) => SettleAccounted(w, a);
    case _ => QuietStepAccounted(w, a);
  }

  lemma SettleAccounted(w: World, a: Action)
    requires Accounted(w) && DispatchesClaimed(w) && Enabled(w, a) && a.SpawnSettles?
    ensures Accounted(Do(w, a)) && DispatchesClaimed(Do(w, a))
  {
    EndSpawnAccounted(w, a.c, a.run, Ended);
  }

  /** Any interleaving; an action that is not possible when its turn comes is skipped. */
  ghost function Run(w: World, actions: seq<Action>): (r: World)
    requires Inv(w)
    ensures Inv(r)
    decreases |actions|
  {
    if actions == [] then w
    else if !Enabled(w, actions[0]) then Run(w, actions[1..])
    else
      StepKeepsInv(w, actions[0]);
      Run(Do(w, actions[0]), actions[1..])
  }

  /** Runs just created, and no controller yet. */
  function Init(now: int, rows: map<nat, T.Row>): World {
    World(now, Db(rows, map run | run in rows :: []), map[], map[], {})
  }

  ghost predicate CreatedRows(now: int, rows: map<nat, T.Row>) {
    forall run :: run in rows ==> T.Created(rows[run]) && rows[run].createdAt <= now
  }

  lemma InitHolds(now: int, rows: map<nat, T.Row>)
    requires CreatedRows(now, rows)
    ensures Inv(Init(now, rows))
  {
  }

  // --------------------------------------------------------------------
  // The results

  /**
    Every provider dispatch follows a compare-and-set of its own, made on a row
    without a cancel request, in every interleaving.
   */
  lemma DispatchFollowsClaim(now: int, rows: map<nat, T.Row>, actions: seq<Action>, x: Claim)
    requires CreatedRows(now, rows) && Inv(Init(now, rows))
    requires x in Run(Init(now, rows), actions).dispatched
    ensures var db := Run(Init(now, rows), actions).db;
            && IsDispatchClaim(db, x)
            && T.NoCancel(db.history[x.0][x.1].before)
            && db.history[x.0][x.1].before.status == db.history[x.0][x.1].change.snapshot.status
            && db.history[x.0][x.1].after.status.Dequeued?
  {
    var db := Run(Init(now, rows), actions).db;
    T.EntryOf(db.first[x.0], db.history[x.0], x.1);
  }

  /** No claim is dispatched twice: at the dispatch it has not been dispatched before. */
  lemma ClaimDispatchedOnce(w: World, a: Action)
    requires Inv(w) && Enabled(w, a)
    ensures forall x :: x in Do(w, a).dispatched && x !in w.dispatched ==>
              a.DispatchToProvider? && Made(w, a.c, x) && x.0 == a.run
    ensures a.DispatchToProvider? && w.controllers[a.c].memory.running ==>
              (a.run, w.controllers[a.c].memory.inFlight[a.run].phase.claim) !in w.dispatched
  {
    hide HistoriesLegal, MemoriesValid, T.Allowed, T.FoundByRecovery, T.BootstrapOverdue, M.TakePending;
    hide M.ScheduleRestart;
    if a.DispatchToProvider? {
      assert AwaitsDispatch(w, a.c, (a.run, w.controllers[a.c].memory.inFlight[a.run].phase.claim));
    }
  }

  /** At most ten spawns in flight in every controller, at every point of every run. */
  lemma SpawnsAreBounded(now: int, rows: map<nat, T.Row>, actions: seq<Action>, c: nat)
    requires CreatedRows(now, rows) && Inv(Init(now, rows))
    requires c in Run(Init(now, rows), actions).controllers
    ensures |Run(Init(now, rows), actions).controllers[c].memory.inFlight| <= M.MAX_CONCURRENT_SPAWNS
  {
  }

  /** A row that left Pending at position `n`, by a claim, by a cancel or by being finished. */
  predicate LeftPending(h: T.History, n: nat) {
    && n < |h| && h[n].before.status.Pending? && !h[n].after.status.Pending?
    && (h[n].change.DispatchClaim? || h[n].change.OrphanClaim? || h[n].change.Cancel? || h[n].change.Finish?)
  }

  /** Since its restart, a run is still Pending, not started and not canceled, or it has left Pending. */
  lemma {:induction false} AfterRestart(first: T.Row, h: T.History, r: nat)
    requires T.Legal(first, h) && r < |h| && h[r].change.BootstrapRestart?
    ensures (var row := T.RowAfter(first, h); row.status.Pending? && row.startedAt.None? && row.canceledAt.None?)
            || exists n :: r < n && LeftPending(h, n)
    decreases |h|
  {
    var past, e := h[..|h| - 1], h[|h| - 1];
    if r < |past| {
      AfterRestart(first, past, r);
      if n :| r < n && LeftPending(past, n) {
        assert LeftPending(h, n);
      } else if !e.after.status.Pending? {
        assert LeftPending(h, |h| - 1);
      }
    }
  }

  /** A run is restarted once, so after its restart it leaves Pending once. */
  lemma {:induction false} LeavesForGood(first: T.Row, h: T.History, r: nat, n: nat, m: nat)
    requires T.Legal(first, h) && r < n <= m < |h| && h[r].change.BootstrapRestart? && LeftPending(h, n)
    ensures !h[m].after.status.Pending?
    ensures n < m ==> !LeftPending(h, m)
    decreases m
  {
    if n < m {
      LeavesForGood(first, h, r, n, m - 1);
      T.EntryOf(first, h, m);
      assert h[..m][r].change.BootstrapRestart?;
    }
  }

  predicate IsClaim(db: Db, x: Claim) {
    IsDispatchClaim(db, x) || IsOrphanClaim(db, x)
  }

  /** Nobody sees to the claim. */
  predicate IsDropped(fate: Fate) {
    fate.Lost? || fate.InHand? || fate.Refused? || fate.Abandoned?
  }

  /** Somebody sees to the claim: a spawn in flight that made it or was started for it; or its attempt is complete. */
  ghost predicate IsServed(w: World, x: Claim) {
    (exists c :: Holds(w, c, x)) || (x in w.fate && w.fate[x].Ended?)
  }

  /** An accepted restart is seen to: its row waits for the recovery query, or a claim made since is served. */
  ghost predicate IsCarriedOn(w: World, run: nat, r: nat)
    requires Known(w, run)
  {
    || T.FoundByRecovery(RowOf(w.db, run), w.db.history[run])
    || exists n :: r < n && IsServed(w, (run, n))
  }

  /**
    The row has left Pending since the restart, and every claim made since was
    lost in a crash, is still in hand, found no room for a spawn, or was abandoned
    by a controller that was stopped.
   */
  ghost predicate IsLeftBehind(w: World, run: nat, r: nat)
    requires Known(w, run)
  {
    && (exists n :: r < n && LeftPending(w.db.history[run], n))
    && forall n :: r < n && IsClaim(w.db, (run, n)) ==> (run, n) in w.fate && IsDropped(w.fate[(run, n)])
  }

  /** In every reachable state an accepted restart is seen to exactly when it is not left behind in this way. */
  lemma RestartCarriedOnIff(now: int, rows: map<nat, T.Row>, actions: seq<Action>, run: nat, r: nat)
    requires CreatedRows(now, rows) && Inv(Init(now, rows))
    requires var w := Run(Init(now, rows), actions);
             Known(w, run) && r < |w.db.history[run]| && w.db.history[run][r].change.BootstrapRestart?
    ensures var w := Run(Init(now, rows), actions);
            IsCarriedOn(w, run, r) <==> !IsLeftBehind(w, run, r)
  {
    CarriedOnIff(Run(Init(now, rows), actions), run, r);
  }

  lemma CarriedOnIff(w: World, run: nat, r: nat)
    requires Inv(w) && Known(w, run) && r < |w.db.history[run]| && w.db.history[run][r].change.BootstrapRestart?
    ensures IsCarriedOn(w, run, r) <==> !IsLeftBehind(w, run, r)
  {
    hide T.Legal, T.Allowed, MemoriesValid, DispatchesClaimed, Holds, HoldsInHand, IsServed, IsClaim;
    var h := w.db.history[run];
    AfterRestart(w.db.first[run], h, r);
    forall n: nat
      ensures IsClaim(w.db, (run, n)) ==>
                (run, n) in w.fate && (IsServed(w, (run, n)) <==> !IsDropped(w.fate[(run, n)]))
      ensures IsServed(w, (run, n)) ==> IsClaim(w.db, (run, n))
    {
      ClaimServedIff(w, (run, n));
    }
    if n :| r < n && LeftPending(h, n) {
      LeavesForGood(w.db.first[run], h, r, n, |h| - 1);
    } else {
      assert T.RestartRecorded(h);
    }
  }

  /** A claim is served exactly when it is not dropped, and nothing else is served. */
  lemma ClaimServedIff(w: World, x: Claim)
    requires Accounted(w)
    ensures IsClaim(w.db, x) ==> x in w.fate && (IsServed(w, x) <==> !IsDropped(w.fate[x]))
    ensures IsServed(w, x) ==> IsClaim(w.db, x)
  {
    hide Holds, HoldsInHand, IsDispatchClaim, IsOrphanClaim;
  }

  /** The places in which a restart waits: a row for the recovery, a spawn, or a controller's memory. */
  ghost predicate IsSomewhere(w: World, run: nat)
    requires Known(w, run)
  {
    || T.FoundByRecovery(RowOf(w.db, run), w.db.history[run])
    || exists c :: c in w.controllers && var m := w.controllers[c].memory;
         run in m.inFlight || run in M.Runs(m.pending) || run in m.awaiting
  }

  /** The attempt of a claim made since the restart is complete. */
  ghost predicate AttemptIsComplete(w: World, run: nat, r: nat) {
    exists n :: r < n && (run, n) in w.fate && w.fate[(run, n)].Ended?
  }

  /** A controller has the run in mind for no claim made since the restart. */
  ghost predicate IsRemembered(w: World, run: nat, r: nat) {
    exists c :: c in w.controllers && var m := w.controllers[c].memory;
      || run in M.Runs(m.pending) || run in m.awaiting
      || (run in m.inFlight && forall n :: r < n ==> !Holds(w, c, (run, n)))
  }

  /**
    In every reachable state an accepted restart is in one of the places it waits
    in, or its attempt is complete, exactly when it is not left behind or some
    controller still has the run in mind.
   */
  lemma RestartIsSomewhereIff(now: int, rows: map<nat, T.Row>, actions: seq<Action>, run: nat, r: nat)
    requires CreatedRows(now, rows) && Inv(Init(now, rows))
    requires var w := Run(Init(now, rows), actions);
             Known(w, run) && r < |w.db.history[run]| && w.db.history[run][r].change.BootstrapRestart?
    ensures var w := Run(Init(now, rows), actions);
            IsSomewhere(w, run) || AttemptIsComplete(w, run, r) <==> !IsLeftBehind(w, run, r) || IsRemembered(w, run, r)
  {
    var w := Run(Init(now, rows), actions);
    CarriedOnIff(w, run, r);
    PlacesIff(w, run, r);
  }

  lemma PlacesIff(w: World, run: nat, r: nat)
    requires Known(w, run)
    ensures IsSomewhere(w, run) || AttemptIsComplete(w, run, r) <==> IsCarriedOn(w, run, r) || IsRemembered(w, run, r)
  {
    hide T.FoundByRecovery;
    if IsCarriedOn(w, run, r) && !T.FoundByRecovery(RowOf(w.db, run), w.db.history[run]) {
      var n :| r < n && IsServed(w, (run, n));
    }
  }

  /** The next orphan claim that finds room for a spawn carries the restart on, whatever was left behind before. */
  lemma ReclaimCarriesOn(w: World, c: nat, run: nat, r: nat)
    requires Inv(w) && Enabled(w, OrphanScan(c, run)) && r < |w.db.history[run]|
    requires run !in w.controllers[c].memory.inFlight
    requires |w.controllers[c].memory.inFlight| < M.MAX_CONCURRENT_SPAWNS
    ensures var v := Do(w, OrphanScan(c, run));
            && Enabled(v, SpawnHand(c)) && Known(Do(v, SpawnHand(c)), run)
            && IsCarriedOn(Do(v, SpawnHand(c)), run, r)
  {
    hide T.Allowed, T.Legal, T.RowAfter, T.FoundByRecovery;
    var u := Do(Do(w, OrphanScan(c, run)), SpawnHand(c));
    assert Holds(u, c, (run, |w.db.history[run]|));
    assert IsServed(u, (run, |w.db.history[run]|));
  }

  /* ----- where the steps of a controller lead ----- */

  function MemoryOf(w: World, c: nat): M.Memory
    requires c in w.controllers
  {
    w.controllers[c].memory
  }

  predicate HasRoomFor(w: World, c: nat, run: nat) {
    c in w.controllers
    && MemoryOf(w, c).running && |MemoryOf(w, c).inFlight| < M.MAX_CONCURRENT_SPAWNS && run !in MemoryOf(w, c).inFlight
  }

  predicate IsKept(w: World, c: nat, run: nat) {
    c in w.controllers && (run in MemoryOf(w, c).inFlight || run in M.Runs(MemoryOf(w, c).pending))
  }

  /** A restart that a controller recovers or schedules is in flight there or waits there, and no other is dropped. */
  lemma SchedulingKeeps(w: World, a: Action)
    requires Inv(w) && Enabled(w, a) && (a.RecoverRestart? || a.ScheduleRestart?)
    ensures var r := Do(w, a);
            && IsKept(r, a.c, a.run)
            && (forall x :: IsKept(w, a.c, x) ==> IsKept(r, a.c, x))
            && r.db == w.db && (forall d :: d != a.c && d in w.controllers ==>
                                  d in r.controllers && r.controllers[d] == w.controllers[d])
  {
    hide T.FoundByRecovery, M.ScheduleRestart, M.Runs;
    var row := if a.ScheduleRestart? then a.row else RowOf(w.db, a.run);
    M.ScheduledIsKept(MemoryOf(w, a.c), a.run, row);
  }

  /** Serving the waiting restarts drops none; with room the oldest is in flight. */
  lemma ServingKeeps(w: World, c: nat)
    requires Inv(w) && Enabled(w, ServePending(c))
    ensures var r, m := Do(w, ServePending(c)), MemoryOf(w, c);
            && (forall x :: IsKept(w, c, x) ==> IsKept(r, c, x))
            && (m.pending != [] && HasRoomFor(w, c, m.pending[0].run) ==>
                  m.pending[0].run in MemoryOf(r, c).inFlight && MemoryOf(r, c).pending == m.pending[1..])
  {
    hide M.TakePending, M.Runs;
    var m := MemoryOf(w, c);
    M.WaitingIsKept(m);
    M.TakeKeepsHeld(m);
    if m.pending != [] && HasRoomFor(w, c, m.pending[0].run) { M.OldestIsServed(m); }
  }

  /** The claim that a controller's spawn of the run has just made. */
  predicate ClaimedBy(w: World, c: nat, run: nat, n: nat) {
    Made(w, c, (run, n)) && IsDispatchClaim(w.db, (run, n)) && AwaitsDispatch(w, c, (run, n))
  }

  /** A persisted restart is taken up by any controller with room: recovered, its spawn claims the row. */
  lemma RecoveryCarriesOn(w: World, c: nat, run: nat)
    requires Inv(w) && Enabled(w, RecoverRestart(c, run)) && HasRoomFor(w, c, run) && T.NoCancel(RowOf(w.db, run))
    ensures var u := Do(w, RecoverRestart(c, run));
            && Enabled(u, ClaimRun(c, run))
            && ClaimedBy(Do(u, ClaimRun(c, run)), c, run, |w.db.history[run]|)
  {
    var m := MemoryOf(w, c);
    M.ScheduledIsSpawned(m, run, RowOf(w.db, run));
    var u := Do(w, RecoverRestart(c, run));
    SpawnOfPendingClaims(u, c, run);
  }

  /** So is one the same controller schedules, from the row it restarted, while that row is Pending. */
  lemma ScheduledCarriesOn(w: World, c: nat, run: nat, row: T.Row)
    requires Inv(w) && Enabled(w, ScheduleRestart(c, run, row)) && HasRoomFor(w, c, run) && Known(w, run)
    requires T.NoCancel(row) && T.NoCancel(RowOf(w.db, run)) && RowOf(w.db, run).status.Pending?
    ensures var u := Do(w, ScheduleRestart(c, run, row));
            && Enabled(u, ClaimRun(c, run))
            && ClaimedBy(Do(u, ClaimRun(c, run)), c, run, |w.db.history[run]|)
  {
    M.ScheduledIsSpawned(MemoryOf(w, c), run, row);
    var u := Do(w, ScheduleRestart(c, run, row));
    SpawnOfPendingClaims(u, c, run);
  }

  lemma SpawnOfPendingClaims(u: World, c: nat, run: nat)
    requires Enabled(u, ClaimRun(c, run))
    requires var row, snapshot := RowOf(u.db, run), MemoryOf(u, c).inFlight[run].snapshot;
             row.status.Pending? && snapshot.status.Pending? && T.NoCancel(row) && T.NoCancel(snapshot)
    ensures ClaimedBy(Do(u, ClaimRun(c, run)), c, run, |u.db.history[run]|)
  {
    hide T.RowAfter, T.Legal;
    ClaimRunIs(u, ClaimRun(c, run));
  }

  /**
    When a worker exits before it has started, the run is restarted, once, and
    waits in the controller for its cleanup; the next time it fails. A run that
    has started, sent a heartbeat or ended is left alone.
   */
  lemma WorkerExitDecides(w: World, c: nat, run: nat)
    requires Inv(w) && Enabled(w, WorkerExits(c, run))
    ensures var r, row, h := Do(w, WorkerExits(c, run)), RowOf(w.db, run), w.db.history[run];
            && (T.Unclaimed(row) && !T.RestartRecorded(h) ==>
                  T.FoundByRecovery(RowOf(r.db, run), r.db.history[run]) && run in MemoryOf(r, c).awaiting)
            && (T.Unclaimed(row) && T.RestartRecorded(h) ==>
                  RowOf(r.db, run).status.Failed? && MemoryOf(r, c) == MemoryOf(w, c))
            && (!T.Unclaimed(row) ==> r == w)
  {
    var h := w.db.history[run];
    var more := T.Extend(w.db.first[run], h, T.BootstrapRestart, w.now);
    assert more[|h|].change.BootstrapRestart?;
  }

  /** A bootstrap that is overdue fails its run. */
  lemma OverdueFails(w: World, c: nat, run: nat)
    requires Inv(w) && Enabled(w, TimeOutBootstrap(c, run))
    ensures RowOf(Do(w, TimeOutBootstrap(c, run)).db, run).status.Failed?
    ensures w.now > RowOf(w.db, run).provisionReadyAt.value + 120_000
  {
  }

  /* ----- two attempts at once ----- */

  /** A dispatch attempt of the run, past its compare-and-set, is under way in the controller. */
  predicate HasAttempt(w: World, c: nat, run: nat) {
    c in w.controllers && run in w.controllers[c].memory.inFlight
    && !w.controllers[c].memory.inFlight[run].phase.Claiming?
  }

  /** Pending rows are claimed once per restart: after a claim, only a row loaded in another state can match again. */
  lemma ClaimAfterClaimIff(first: T.Row, h: T.History, n: nat, snapshot: T.Row, now: int)
    requires T.Legal(first, h) && n < |h| && h[n].change.DispatchClaim? && T.NoRestartBetween(h, n, |h|)
    ensures T.Allowed(T.RowAfter(first, h), h, T.DispatchClaim(snapshot), now) <==>
              && T.MayDispatch(snapshot) && !snapshot.status.Pending?
              && T.RowAfter(first, h).status == snapshot.status && T.NoCancel(T.RowAfter(first, h))
  {
    StaysDequeued(first, h, n, |h| - 1);
  }

  lemma {:induction false} StaysDequeued(first: T.Row, h: T.History, n: nat, m: nat)
    requires T.Legal(first, h) && n <= m < |h| && h[n].change.DispatchClaim? && T.NoRestartBetween(h, n, |h|)
    ensures !h[m].after.status.Pending?
    decreases m
  {
    T.EntryOf(first, h, m);
    if n < m { StaysDequeued(first, h, n, m - 1); }
  }

  predicate RestartedSince(h: T.History, n: nat) {
    exists k :: n < k < |h| && h[k].change.BootstrapRestart?
  }

  /**
    Beside an attempt of another controller, which claimed at position `n`, a
    second one gets under way exactly when the row still has the status in which
    it was loaded, there is no cancel, and that status is not Pending unless the
    run was restarted since.
   */
  lemma SecondAttemptIff(now: int, rows: map<nat, T.Row>, actions: seq<Action>, c: nat, d: nat, run: nat, n: nat)
    requires CreatedRows(now, rows) && Inv(Init(now, rows))
    requires var w := Run(Init(now, rows), actions);
             c != d && Made(w, d, (run, n)) && Enabled(w, ClaimRun(c, run))
    ensures var w := Run(Init(now, rows), actions);
            var v := Do(w, ClaimRun(c, run));
            var row, snapshot := RowOf(w.db, run), w.controllers[c].memory.inFlight[run].snapshot;
            && HasAttempt(v, d, run)
            && (HasAttempt(v, c, run) <==>
                  && T.MayDispatch(snapshot) && row.status == snapshot.status && T.NoCancel(row)
                  && (snapshot.status.Pending? ==> RestartedSince(w.db.history[run], n)))
  {
    var w := Run(Init(now, rows), actions);
    AttemptStartsIff(w, c, d, run);
    SecondClaimIff(w, d, run, n, w.controllers[c].memory.inFlight[run].snapshot);
  }

  lemma AttemptStartsIff(w: World, c: nat, d: nat, run: nat)
    requires c != d && HasAttempt(w, d, run) && Enabled(w, ClaimRun(c, run))
    ensures var v := Do(w, ClaimRun(c, run));
            && HasAttempt(v, d, run)
            && (HasAttempt(v, c, run) <==>
                  CanChange(w, run, T.DispatchClaim(w.controllers[c].memory.inFlight[run].snapshot)))
  {
    hide T.Allowed, T.Extend, T.RowAfter;
  }

  lemma SecondClaimIff(w: World, d: nat, run: nat, n: nat, snapshot: T.Row)
    requires Inv(w) && Known(w, run) && Made(w, d, (run, n))
    ensures CanChange(w, run, T.DispatchClaim(snapshot)) <==>
              && T.MayDispatch(snapshot) && RowOf(w.db, run).status == snapshot.status && T.NoCancel(RowOf(w.db, run))
              && (snapshot.status.Pending? ==> RestartedSince(w.db.history[run], n))
  {
    hide T.Legal, T.MayDispatch, T.RowAfter, MemoriesValid, Accounted;
    var h := w.db.history[run];
    assert IsDispatchClaim(w.db, (run, n));
    if !RestartedSince(h, n) {
      assert T.NoRestartBetween(h, n, |h|);
      ClaimAfterClaimIff(w.db.first[run], h, n, snapshot, w.now);
    }
  }

  /**
    So it does when a run is popped from the queue again while an attempt is under
    way and its worker has not started.
   */
  lemma PoppedAgainBesideAttempt(w: World, c: nat, d: nat, run: nat)
    requires Inv(w) && c != d && HasAttempt(w, d, run) && Enabled(w, Pop(c, run))
    requires RowOf(w.db, run).status.Dequeued? && T.NoCancel(RowOf(w.db, run))
    requires run !in w.controllers[c].memory.inFlight
    requires |w.controllers[c].memory.inFlight| < M.MAX_CONCURRENT_SPAWNS
    ensures var u := Do(w, Pop(c, run));
            && Enabled(u, SpawnHand(c))
            && var v := Do(u, SpawnHand(c));
            && Enabled(v, ClaimRun(c, run))
            && HasAttempt(Do(v, ClaimRun(c, run)), c, run) && HasAttempt(Do(v, ClaimRun(c, run)), d, run)
  {
    hide T.Legal, T.RowAfter, T.Extend;
  }

  /**
    Controller 0 dispatches run 0, sees its worker exit, restarts the run and
    crashes before it schedules the restart; controller 1 reclaims the row in its
    orphan scan, and stops before it spawns.
   */
  function Overtaking(): seq<Action> {
    [Start(0), Start(1), Pop(0, 0), SpawnHand(0), ClaimRun(0, 0), DispatchToProvider(0, 0), SpawnSettles(0, 0),
     WorkerExits(0, 0), Crash(0), OrphanScan(1, 0), Stop(1), SpawnHand(1)]
  }

  const MADE: T.Row := M.NO_ROW

  const NOON := 1_000_000

  /** The history of run 0 after its first `k` transactions. */
  function HistoryTo(k: nat): T.History
    requires k <= 3
  {
    if k == 0 then []
    else T.Extend(MADE, HistoryTo(k - 1),
                  if k == 1 then T.DispatchClaim(MADE) else if k == 2 then T.BootstrapRestart else T.OrphanClaim, NOON)
  }

  lemma RowTo(k: nat)
    requires k <= 3
    ensures var row := T.RowAfter(MADE, HistoryTo(k));
            && |HistoryTo(k)| == k && T.RestartRecorded(HistoryTo(k)) == (k >= 2)
            && row == if k % 2 == 0 then MADE else MADE.(status := T.Dequeued, dequeuedAt := Some(NOON))
  {
    if k > 0 {
      RowTo(k - 1);
      var e := HistoryTo(k)[k - 1];
      assert HistoryTo(k) == HistoryTo(k - 1) + [e];
      if k == 3 { assert HistoryTo(3)[1].change.BootstrapRestart?; }
    }
  }

  /** What controller 0 remembers before action `k` of that run. */
  function FirstMemory(k: nat): M.Memory {
    if k == 4 then M.FRESH.(inFlight := map[0 := M.Spawn(MADE, M.Claiming, None)])
    else if k == 5 then M.FRESH.(inFlight := map[0 := M.Spawn(MADE, M.Claimed(0), None)])
    else if k == 6 then M.FRESH.(inFlight := map[0 := M.Spawn(MADE, M.Dispatched(0), None)])
    else if k == 8 then M.FRESH.(awaiting := {0})
    else M.FRESH
  }

  /** The world before action `k`. */
  function Stage(k: nat): World
    requires k <= 12
  {
    var claimed := MADE.(status := T.Dequeued, dequeuedAt := Some(NOON));
    var c0 := Controller(FirstMemory(k), if k == 3 then Some(Hand(0, MADE, None)) else None);
    var c1 := Controller(if k >= 11 then M.FRESH.(running := false) else M.FRESH,
                         if k == 10 || k == 11 then Some(Hand(0, claimed, Some(2))) else None);
    World(NOON,
      Db(map[0 := MADE], map[0 := HistoryTo(if k < 5 then 0 else if k < 8 then 1 else if k < 10 then 2 else 3)]),
      if k == 0 then map[] else if k == 1 then map[0 := c0] else if k < 9 then map[0 := c0, 1 := c1] else map[1 := c1],
      if k < 5 then map[]
      else if k < 7 then map[(0, 0) := InFlight(0)]
      else if k < 10 then map[(0, 0) := Ended]
      else map[(0, 0) := Ended, (0, 2) := if k == 12 then Refused else InHand(1)],
      if k < 6 then {} else {(0, 0)})
  }

  /** Action `k` leads from each stage to the next. */
  ghost predicate Steps(k: nat) {
    k < 12 && Enabled(Stage(k), Overtaking()[k]) && Do(Stage(k), Overtaking()[k]) == Stage(k + 1)
  }

  lemma FirstStages(k: nat)
    requires k < 4
    ensures Steps(k)
  {
    hide HistoryTo, T.RowAfter, T.Legal, T.Extend, T.RestartRecorded, T.FoundByRecovery;
    RowTo(0);
    ExtendsTo();
  }

  lemma ClaimStage()
    ensures Steps(4)
  {
    hide HistoryTo, T.RowAfter, T.Legal, T.Extend, T.RestartRecorded, T.FoundByRecovery;
    RowTo(0);
    ExtendsTo();
    var m := FirstMemory(4);
    assert m.(inFlight := m.inFlight[0 := m.inFlight[0].(phase := M.Claimed(0))]) == FirstMemory(5);
    assert CanChange(Stage(4), 0, T.DispatchClaim(MADE));
    assert Do(Stage(4), ClaimRun(0, 0)).controllers == Stage(5).controllers;
    assert Do(Stage(4), ClaimRun(0, 0)).db == Stage(5).db;
  }

  lemma DispatchStage()
    ensures Steps(5)
  {
    hide HistoryTo, T.RowAfter, T.Legal, T.Extend, T.RestartRecorded, T.FoundByRecovery;
    var m := FirstMemory(5);
    assert m.(inFlight := m.inFlight[0 := m.inFlight[0].(phase := M.Dispatched(0))]) == FirstMemory(6);
  }

  lemma SettleStage()
    ensures Steps(6)
  {
    hide HistoryTo, T.RowAfter, T.Legal, T.Extend, T.RestartRecorded, T.FoundByRecovery;
    assert M.SpawnEnds(FirstMemory(6), 0) == FirstMemory(7);
  }

  lemma RestartStage()
    ensures Steps(7)
  {
    hide HistoryTo, T.RowAfter, T.Legal, T.Extend, T.RestartRecorded, T.FoundByRecovery;
    RowTo(1);
    ExtendsTo();
    assert (0, 0) in Stage(7).dispatched;
    assert M.FRESH.awaiting + {0} == {0};
  }

  lemma ReclaimStages(k: nat)
    requires 8 <= k < 10
    ensures Steps(k)
  {
    hide HistoryTo, T.RowAfter, T.Legal, T.Extend, T.RestartRecorded, T.FoundByRecovery;
    RowTo(2);
    RowTo(3);
    ExtendsTo();
  }

  lemma RefuseStages(k: nat)
    requires 10 <= k < 12
    ensures Steps(k)
  {
    hide HistoryTo, T.RowAfter, T.Legal, T.Extend, T.RestartRecorded, T.FoundByRecovery;
  }

  lemma StageStep(k: nat)
    requires k < 12
    ensures Steps(k)
  {
    hide Steps;
    if k < 4 { FirstStages(k); }
    else if k == 4 { ClaimStage(); }
    else if k == 5 { DispatchStage(); }
    else if k == 6 { SettleStage(); }
    else if k == 7 { RestartStage(); }
    else if k < 10 { ReclaimStages(k); }
    else { RefuseStages(k); }
  }

  lemma ExtendsTo()
    ensures HistoryTo(0) == []
    ensures T.Extend(MADE, HistoryTo(0), T.DispatchClaim(MADE), NOON) == HistoryTo(1)
    ensures T.Extend(MADE, HistoryTo(1), T.BootstrapRestart, NOON) == HistoryTo(2)
    ensures T.Extend(MADE, HistoryTo(2), T.OrphanClaim, NOON) == HistoryTo(3)
  {
  }

  lemma {:induction false} ReachesStage(k: nat)
    requires k <= 12 && Inv(Stage(0))
    ensures Inv(Stage(k)) && Run(Stage(0), Overtaking()) == Run(Stage(k), Overtaking()[k..])
  {
    hide Stage, Do, Enabled, Inv;
    if k == 0 {
      assert Overtaking()[0..] == Overtaking();
    } else {
      ReachesStage(k - 1);
      StageStep(k - 1);
      StepKeepsInv(Stage(k - 1), Overtaking()[k - 1]);
      assert Overtaking()[k - 1..][1..] == Overtaking()[k..];
    }
  }

  /** So a restarted run can be in none of these places and not carried on; the orphan scan finds it in time. */
  lemma RestartCanBeNowhere()
    ensures var rows := map[0 := MADE];
            && CreatedRows(NOON, rows) && Inv(Init(NOON, rows))
            && var w := Run(Init(NOON, rows), Overtaking());
            && Known(w, 0) && |w.db.history[0]| == 3 && w.db.history[0][1].change.BootstrapRestart?
            && !IsSomewhere(w, 0) && !AttemptIsComplete(w, 0, 1) && IsLeftBehind(w, 0, 1)
  {
    var rows := map[0 := MADE];
    InitHolds(NOON, rows);
    assert Init(NOON, rows) == Stage(0);
    ReachesStage(12);
    assert Overtaking()[12..] == [];
    LastStage();
  }

  lemma LastStage()
    ensures var w := Stage(12);
            && Known(w, 0) && |w.db.history[0]| == 3 && w.db.history[0][1].change.BootstrapRestart?
            && !IsSomewhere(w, 0) && !AttemptIsComplete(w, 0, 1) && IsLeftBehind(w, 0, 1)
  {
    RowTo(2);
    RowTo(3);
    var h := HistoryTo(3);
    assert h == HistoryTo(2) + [h[2]] && h[1].change.BootstrapRestart?;
    assert LeftPending(h, 2);
  }

  /** A run taken over by the orphan scan, or whose claim was lost, stays in the scan's reach. */
  lemma DequeuedStaysClaimable(now: int, rows: map<nat, T.Row>, actions: seq<Action>, run: nat)
    requires CreatedRows(now, rows) && Inv(Init(now, rows))
    requires var w := Run(Init(now, rows), actions); Known(w, run) && RowOf(w.db, run).status.Dequeued?
    ensures var row := RowOf(Run(Init(now, rows), actions).db, run);
            && row.dequeuedAt.Some?
            && (T.NoCancel(row) ==>
                  forall later :: row.dequeuedAt.value + T.ORPHANED_AFTER_DEQUEUE_THRESHOLD_MS < later ==>
                    T.OrphanEligible(row, later))
  {
    var w := Run(Init(now, rows), actions);
    T.DequeuedHasLease(w.db.first[run], w.db.history[run]);
  }
}

/**
  The gateway end to end, for one session of one shard: any number of
  overlapping connections (a new one may start while the handlers and flushes of
  an aborted one linger), the stored resume sequence, and the inbound queue.
  Every step is atomic; a process crash drops connections, whose writes to the
  database may still land.

  Discord numbers the dispatches of the session, and sends the same packet under
  the same number when it replays: that is `feed`. `scope` is the session's
  dedupe scope, the same across resumes.
 */
module Gateway {
  import opened Prelude
  import Checkpoint
  import Dispatch
  import Q = QueueModel

  const MAX_PENDING_DISPATCHES := 100

  type Feed = int -> Dispatch.Packet

  datatype Session = Session(feed: Feed, scope: Option<string>, id: string, base: int)

  /**
    One connection: its resume store, whether the flush in flight has reached
    the database, the numbers whose handlers are running, and those whose
    handlers have the event safe but have not acknowledged it yet.
   */
  datatype Conn = Conn(
    shard: Checkpoint.Shard,
    landed: bool,
    handling: multiset<int>,
    ready: multiset<int>,
    aborted: bool,
    reconnect: bool)

  datatype World = World(
    stored: int,
    late: multiset<int>,
    conns: map<nat, Conn>,
    queue: Q.Queue,
    ignored: set<int>,
    received: set<int>)

  datatype Action =
    | Connect(c: nat)
    | Observe(c: nat, k: int)
    | Ignore(c: nat, k: int, deps: Dispatch.Deps)
    | Enqueue(c: nat, k: int, deps: Dispatch.Deps, id: Q.StreamId, now: int, trim: nat, answered: bool)
    | HandlerFails(c: nat, k: int)
    | Acknowledge(c: nat, k: int)
    | ReportFails(c: nat, k: int)
    | FlushBegin(c: nat)
    | WriteLands(c: nat)
    | FlushOk(c: nat)
    | FlushFails(c: nat)
    | LateWrite(v: int)
    | Abort(c: nat)
    | Drop(c: nat)
    | OthersStep(step: Q.Step)

  /** Every connection has retrieved or been given its session. */
  predicate Started(w: World) {
    forall c :: c in w.conns ==> w.conns[c].shard.session.Some?
  }

  predicate Enabled(s: Session, w: World, a: Action)
    requires Started(w)
  {
    match a
    case Connect(c) => c !in w.conns
    case Observe(c, k) => c in w.conns && s.base < k
    case Ignore(c, k, d) =>
      c in w.conns && k in w.conns[c].handling && d.scope == s.scope && Dispatch.Handle(s.feed(k), d).Ignored?
    case Enqueue(c, k, d, id, now, trim, _) =>
      && c in w.conns && k in w.conns[c].handling && d.scope == s.scope
      && Dispatch.Handle(s.feed(k), d).Enqueue?
      && Q.Enabled(w.queue, Q.Put(Dispatch.Handle(s.feed(k), d).envelope, id, now, trim))
    case HandlerFails(c, k) => c in w.conns && k in w.conns[c].handling
    case Acknowledge(c, k) =>
      // The source does not check this; see Checkpoint.AcknowledgeIsSoundIff.
      c in w.conns && k in w.conns[c].ready && k <= w.conns[c].shard.session.value.sequence
    case ReportFails(c, k) => c in w.conns && k in w.conns[c].ready
    case FlushBegin(c) =>
      c in w.conns && w.conns[c].shard.flushing.None? && w.conns[c].shard.pending.Some?
    case WriteLands(c) => c in w.conns && w.conns[c].shard.flushing.Some? && !w.conns[c].landed
    case FlushOk(c) => c in w.conns && w.conns[c].shard.flushing.Some? && w.conns[c].landed
    case FlushFails(c) => c in w.conns && w.conns[c].shard.flushing.Some?
    case LateWrite(v) => v in w.late
    case Abort(c) => c in w.conns
    case Drop(c) => c in w.conns
    case OthersStep(step) => Q.Enabled(w.queue, step)
  }

  /** Writes that a connection has sent and nobody waits for any more. */
  function Orphaned(conn: Conn): multiset<int> {
    if conn.shard.flushing.Some? && !conn.landed then multiset{conn.shard.flushing.value} else multiset{}
  }

  /** A dispatch arrives: the session's sequence moves, and a handler starts unless the gate is shut. */
  function Receive(conn: Conn, k: int): Conn {
    var seen := conn.(shard := Checkpoint.Step(conn.shard, Checkpoint.Observe(k)));
    if conn.aborted || conn.reconnect then seen
    else if |conn.handling| + |conn.ready| >= MAX_PENDING_DISPATCHES then seen.(reconnect := true)
    else seen.(handling := conn.handling + multiset{k})
  }

  function Do(s: Session, w: World, a: Action): World
    requires Started(w) && Enabled(s, w, a)
  {
    match a
    case Connect(c) =>
      var row := Checkpoint.Session(s.id, "", 1, w.stored);
      w.(conns := w.conns[c := Conn(Checkpoint.Fresh(row), false, multiset{}, multiset{}, false, false)])
    case Observe(c, k) =>
      w.(conns := w.conns[c := Receive(w.conns[c], k)], received := w.received + {k})
    case Ignore(c, k, _) =>
      var conn := w.conns[c];
      w.(conns := w.conns[c := conn.(handling := conn.handling - multiset{k}, ready := conn.ready + multiset{k})],
         ignored := w.ignored + {k})
    case Enqueue(c, k, d, id, now, trim, answered) =>
      var conn := w.conns[c];
      var after := if answered
        then conn.(handling := conn.handling - multiset{k}, ready := conn.ready + multiset{k}) else conn;
      w.(conns := w.conns[c := after],
         queue := Q.Apply(w.queue, Q.Put(Dispatch.Handle(s.feed(k), d).envelope, id, now, trim)))
    case HandlerFails(c, k) =>
      var conn := w.conns[c];
      var left := conn.(handling := conn.handling - multiset{k}, reconnect := !conn.aborted || conn.reconnect);
      w.(conns := w.conns[c := left])
    case Acknowledge(c, k) =>
      var conn := w.conns[c];
      var (shard, ok) := Checkpoint.Acknowledge(conn.shard, Some(k));
      var left := conn.(shard := shard, ready := conn.ready - multiset{k}, reconnect := !ok || conn.reconnect);
      w.(conns := w.conns[c := left])
    case ReportFails(c, k) =>
      var conn := w.conns[c];
      w.(conns := w.conns[c := conn.(ready := conn.ready - multiset{k}, reconnect := !conn.aborted || conn.reconnect)])
    case FlushBegin(c) =>
      var conn := w.conns[c];
      w.(conns := w.conns[c := conn.(shard := Checkpoint.BeginFlush(conn.shard), landed := false)])
    case WriteLands(c) =>
      w.(stored := w.conns[c].shard.flushing.value, conns := w.conns[c := w.conns[c].(landed := true)])
    case FlushOk(c) =>
      var conn := w.conns[c];
      w.(conns := w.conns[c := conn.(shard := Checkpoint.FlushSucceeds(conn.shard))])
    case FlushFails(c) =>
      var conn := w.conns[c];
      w.(conns := w.conns[c := conn.(shard := Checkpoint.FlushFails(conn.shard))], late := w.late + Orphaned(conn))
    case LateWrite(v) => w.(stored := v, late := w.late - multiset{v})
    case Abort(c) => w.(conns := w.conns[c := w.conns[c].(aborted := true)])
    case Drop(c) => w.(conns := w.conns - {c}, late := w.late + Orphaned(w.conns[c]))
    case OthersStep(step) => w.(queue := Q.Apply(w.queue, step))
  }

  // --------------------------------------------------------------------
  // The invariant

  /** The event of dispatch `k` is in the inbound log, or was deliberately ignored. */
  ghost predicate Safe(s: Session, w: World, k: int) {
    k in w.ignored || exists key :: Dispatch.Names(s.feed(k), s.scope, key) && Q.Logged(w.queue.log, key)
  }

  ghost function Covered(s: Session, w: World): iset<int> {
    iset k | Safe(s, w, k)
  }

  /** A sequence that a resume may start from. */
  ghost predicate Resumable(v: int, base: int, covered: iset<int>) {
    base <= v && Checkpoint.Backed(v, base, covered)
  }

  ghost predicate ConnSound(conn: Conn, base: int, covered: iset<int>) {
    && conn.shard.session.Some?
    && Checkpoint.Sound(conn.shard, base, covered)
    && (forall k :: k in conn.ready ==> k in covered)
    && |conn.handling| + |conn.ready| <= MAX_PENDING_DISPATCHES
    && |conn.shard.acks| <= Checkpoint.MAX_UNCHECKPOINTED
  }

  ghost predicate Inv(s: Session, w: World) {
    && -1 <= s.base
    && Q.WellFormed(w.queue) && Q.DedupeSound(w.queue)
    && Resumable(w.stored, s.base, Covered(s, w))
    && (forall v :: v in w.late ==> Resumable(v, s.base, Covered(s, w)))
    && (forall c :: c in w.conns ==> ConnSound(w.conns[c], s.base, Covered(s, w)))
    && (forall k :: k in w.received ==> s.base < k)
  }

  /** The session as READY leaves it: saved, with nothing received since. */
  function Init(s: Session, queue: Q.Queue): World {
    World(s.base, multiset{}, map[], queue, {}, {})
  }

  lemma SameCoverage(s: Session, w: World, r: World)
    requires r.ignored == w.ignored && r.queue == w.queue
    ensures Covered(s, r) == Covered(s, w)
  {
    assert forall k :: Safe(s, r, k) <==> Safe(s, w, k);
  }

  /** More covered dispatches spoil nothing. */
  lemma CoverageGrows(s: Session, w: World, r: World)
    requires Inv(s, w) && w.ignored <= r.ignored && w.queue.log <= r.queue.log
    ensures Covered(s, w) <= Covered(s, r)
    ensures Resumable(w.stored, s.base, Covered(s, r))
    ensures forall v :: v in w.late ==> Resumable(v, s.base, Covered(s, r))
    ensures forall c :: c in w.conns ==> ConnSound(w.conns[c], s.base, Covered(s, r))
  {
  }

  lemma ReceiveKeeps(conn: Conn, base: int, covered: iset<int>, k: int)
    requires ConnSound(conn, base, covered)
    ensures ConnSound(Receive(conn, k), base, covered)
  {
  }

  lemma StoreStepKeeps(s: Session, w: World, a: Action)
    requires Inv(s, w) && Enabled(s, w, a)
    requires a.FlushBegin? || a.WriteLands? || a.FlushOk? || a.FlushFails?
    ensures Inv(s, Do(s, w, a))
  {
    hide Safe;
    hide Q.WellFormed, Q.DedupeSound;
    var conn := w.conns[a.c];
    var covered := Covered(s, w);
    var r := Do(s, w, a);
    SameCoverage(s, w, r);
    Checkpoint.FlushStepsKeepSound(conn.shard, s.base, covered);
    assert ConnSound(conn, s.base, covered);
  }

  lemma AcknowledgeKeeps(s: Session, w: World, a: Action)
    requires Inv(s, w) && Enabled(s, w, a) && a.Acknowledge?
    ensures Inv(s, Do(s, w, a))
  {
    hide Safe;
    hide Q.WellFormed, Q.DedupeSound, Checkpoint.Sound, Checkpoint.Acknowledge;
    var conn := w.conns[a.c];
    var covered := Covered(s, w);
    var r := Do(s, w, a);
    SameCoverage(s, w, r);
    assert a.k in covered;
    Checkpoint.AcknowledgeKeepsSound(conn.shard, s.base, covered, Some(a.k));
    Checkpoint.AcksStayBounded(conn.shard, Some(a.k));
    Checkpoint.AcknowledgeKeepsSession(conn.shard, Some(a.k));
  }

  lemma QueueStepKeeps(s: Session, w: World, a: Action)
    requires Inv(s, w) && Enabled(s, w, a)
    requires a.Ignore? || a.Enqueue? || a.OthersStep?
    ensures Inv(s, Do(s, w, a))
  {
    hide Dispatch.Handle, Dispatch.Names, Q.WellFormed, Q.DedupeSound, Q.FreshId, Checkpoint.Sound, Resumable;
    var r := Do(s, w, a);
    var step := match a
      case Enqueue(c, k, d, id, now, trim, _) => Q.Put(Dispatch.Handle(s.feed(k), d).envelope, id, now, trim)
      case OthersStep(step) => step
      case _ => Q.Forget({});
    if !a.Ignore? {
      Q.ApplyKeeps(w.queue, step);
    }
    CoverageGrows(s, w, r);
    if a.Enqueue? {
      Q.EnqueueKeeps(w.queue, step.envelope, a.id, a.now, a.trim);
      Dispatch.QueuedAsNamed(s.feed(a.k), a.deps);
      assert Dispatch.Names(s.feed(a.k), s.scope, Q.KeyOf(step.envelope));
    }
    if !a.OthersStep? && (a.Enqueue? ==> a.answered) {
      assert a.k in Covered(s, r);
      assert |w.conns[a.c].handling - multiset{a.k}| == |w.conns[a.c].handling| - 1;
    }
  }

  lemma ConnectKeeps(s: Session, w: World, a: Action)
    requires Inv(s, w) && Enabled(s, w, a) && a.Connect?
    ensures Inv(s, Do(s, w, a))
  {
    hide Safe;
    hide Q.WellFormed, Q.DedupeSound;
    SameCoverage(s, w, Do(s, w, a));
    var row := Checkpoint.Session(s.id, "", 1, w.stored);
    assert Checkpoint.Sound(Checkpoint.Fresh(row), s.base, Covered(s, w));
    hide Checkpoint.Sound;
  }

  lemma ConnStepKeeps(s: Session, w: World, a: Action)
    requires Inv(s, w) && Enabled(s, w, a)
    requires a.HandlerFails? || a.ReportFails? || a.Abort?
    ensures Inv(s, Do(s, w, a))
  {
    hide Safe;
    hide Q.WellFormed, Q.DedupeSound, Checkpoint.Sound, Resumable;
    SameCoverage(s, w, Do(s, w, a));
  }

  lemma ObserveKeeps(s: Session, w: World, a: Action)
    requires Inv(s, w) && Enabled(s, w, a) && a.Observe?
    ensures Inv(s, Do(s, w, a))
  {
    hide Safe;
    hide Q.WellFormed, Q.DedupeSound, Checkpoint.Sound, Receive, Resumable;
    SameCoverage(s, w, Do(s, w, a));
    ReceiveKeeps(w.conns[a.c], s.base, Covered(s, w), a.k);
  }

  lemma DropKeeps(s: Session, w: World, a: Action)
    requires Inv(s, w) && Enabled(s, w, a)
    requires a.LateWrite? || a.Drop?
    ensures Inv(s, Do(s, w, a))
  {
    hide Safe;
    hide Q.WellFormed, Q.DedupeSound;
    SameCoverage(s, w, Do(s, w, a));
  }

  lemma StepKeepsInv(s: Session, w: World, a: Action)
    requires Inv(s, w) && Enabled(s, w, a)
    ensures Inv(s, Do(s, w, a))
  {
    hide Q.WellFormed, Q.DedupeSound, Covered, ConnSound, Do;
    if a.Ignore? || a.Enqueue? || a.OthersStep? {
      QueueStepKeeps(s, w, a);
    } else if a.LateWrite? || a.Drop? {
      DropKeeps(s, w, a);
    } else if a.Connect? {
      ConnectKeeps(s, w, a);
    } else if a.Observe? {
      ObserveKeeps(s, w, a);
    } else if a.HandlerFails? || a.ReportFails? || a.Abort? {
      ConnStepKeeps(s, w, a);
    } else if a.Acknowledge? {
      AcknowledgeKeeps(s, w, a);
    } else {
      StoreStepKeeps(s, w, a);
    }
  }

  // --------------------------------------------------------------------
  // Whole runs

  /** Any interleaving of steps; one that is not possible when its turn comes is skipped. */
  ghost function Run(s: Session, w: World, actions: seq<Action>): (r: World)
    requires Inv(s, w)
    ensures Inv(s, r)
    decreases |actions|
  {
    if actions == [] then w
    else if !Enabled(s, w, actions[0]) then Run(s, w, actions[1..])
    else
      StepKeepsInv(s, w, actions[0]);
      Run(s, Do(s, w, actions[0]), actions[1..])
  }

  /**
    Nothing is lost: after any run, with crashes and reconnections at any point,
    each dispatch ever received is in the inbound log, was deliberately ignored,
    or lies above the stored sequence and is replayed by the next resume.
   */
  lemma NoDispatchIsLost(s: Session, queue: Q.Queue, actions: seq<Action>)
    requires -1 <= s.base && Q.WellFormed(queue) && Q.DedupeSound(queue)
    ensures Inv(s, Init(s, queue))
    ensures var w := Run(s, Init(s, queue), actions);
            forall k :: k in w.received ==> Safe(s, w, k) || w.stored < k
  {
    var w := Run(s, Init(s, queue), actions);
    forall k | k in w.received && k <= w.stored ensures Safe(s, w, k) {
      assert s.base < k <= w.stored;
      assert k in Covered(s, w);
    }
  }

  /** The same for a socket that resumes within the process, from what `retrieve` returns. */
  lemma NoDispatchIsSkipped(s: Session, queue: Q.Queue, actions: seq<Action>, c: nat)
    requires -1 <= s.base && Q.WellFormed(queue) && Q.DedupeSound(queue)
    requires Inv(s, Init(s, queue)) && c in Run(s, Init(s, queue), actions).conns
    ensures var w := Run(s, Init(s, queue), actions);
            var resumed := Checkpoint.Committed(w.conns[c].shard);
            resumed.Some? && forall k :: k in w.received ==> Safe(s, w, k) || resumed.value.sequence < k
  {
    var w := Run(s, Init(s, queue), actions);
    var shard := w.conns[c].shard;
    Checkpoint.CommittedIsBacked(shard, s.base, Covered(s, w));
    var v := Checkpoint.Committed(shard).value.sequence;
    forall k | k in w.received && k <= v ensures Safe(s, w, k) {
      assert s.base < k <= v;
      assert k in Covered(s, w);
    }
  }

  /** However often a dispatch is replayed, its log entries are a dedupe lifetime apart. */
  lemma ReplaysAddNothing(s: Session, queue: Q.Queue, actions: seq<Action>, k: int, key: Q.Key, i: nat, j: nat)
    requires -1 <= s.base && Q.WellFormed(queue) && Q.DedupeSound(queue) && Inv(s, Init(s, queue))
    requires Dispatch.Names(s.feed(k), s.scope, key)
    requires var log := Run(s, Init(s, queue), actions).queue.log;
             i < j < |log| && Q.HasKey(log[i], key) && Q.HasKey(log[j], key)
    ensures var log := Run(s, Init(s, queue), actions).queue.log;
            log[i].at + Q.DEDUPE_TTL <= log[j].at
  {
  }

  // --------------------------------------------------------------------
  // What the steps are for

  /** A new connection resumes from the stored sequence. */
  lemma ConnectResumes(s: Session, w: World, c: nat)
    requires Inv(s, w) && c !in w.conns
    ensures var conn := Do(s, w, Connect(c)).conns[c];
            && Checkpoint.Committed(conn.shard).Some? && Checkpoint.Committed(conn.shard).value.sequence == w.stored
            && !conn.aborted && !conn.reconnect && conn.handling == multiset{} && conn.ready == multiset{}
  {
  }

  /**
    A dispatch moves the observed sequence. Its handler starts exactly when the
    connection is neither given up nor full; a full one is given up.
   */
  lemma ObserveStartsIff(s: Session, w: World, c: nat, k: int)
    requires Inv(s, w) && Enabled(s, w, Observe(c, k))
    ensures var before, after := w.conns[c], Do(s, w, Observe(c, k)).conns[c];
            var full := |before.handling| + |before.ready| >= 100;
            && after.shard.session.value.sequence == k
            && (after.handling == before.handling + multiset{k} <==> !before.aborted && !before.reconnect && !full)
            && (full && !before.aborted ==> after.reconnect)
            && (k in after.handling || after.handling == before.handling)
  {
  }

  /** A handler that fails, or a report that does, gives the connection up; nothing of it is acknowledged. */
  lemma FailureReconnects(s: Session, w: World, a: Action)
    requires Inv(s, w) && Enabled(s, w, a) && (a.HandlerFails? || a.ReportFails?)
    ensures var before, after := w.conns[a.c], Do(s, w, a).conns[a.c];
            (!before.aborted ==> after.reconnect) && after.shard == before.shard
  {
  }

  /** The connection takes dispatches, has room for a handler, and no flush is in flight. */
  predicate IsIdle(conn: Conn) {
    && !conn.aborted && !conn.reconnect && |conn.handling| + |conn.ready| < MAX_PENDING_DISPATCHES
    && conn.shard.flushing.None? && |conn.shard.acks| < Checkpoint.MAX_UNCHECKPOINTED
  }

  /** One dispatch, from the socket to the stored sequence. */
  function Handling(c: nat, k: int, d: Dispatch.Deps, id: Q.StreamId, now: int, trim: nat): seq<Action> {
    [Observe(c, k)] + ([Enqueue(c, k, d, id, now, trim, true)] + Checkpointing(c, k))
  }

  function Checkpointing(c: nat, k: int): seq<Action> {
    [Acknowledge(c, k)] + ([FlushBegin(c)] + ([WriteLands(c)] + ([FlushOk(c)] + [])))
  }

  /** Where the steps lead, if they are possible one after the other. */
  ghost function Follow(s: Session, w: World, actions: seq<Action>): Option<World>
    decreases |actions|
  {
    if actions == [] then Some(w)
    else if Started(w) && Enabled(s, w, actions[0]) then Follow(s, Do(s, w, actions[0]), actions[1..])
    else None
  }

  lemma FollowOn(s: Session, w: World, a: Action, rest: seq<Action>, r: World)
    requires Started(w) && Enabled(s, w, a) && Follow(s, Do(s, w, a), rest) == Some(r)
    ensures Follow(s, w, [a] + rest) == Some(r)
  {
    assert ([a] + rest)[0] == a && ([a] + rest)[1..] == rest;
  }

  function PutConn(w: World, c: nat, conn: Conn): World {
    w.(conns := w.conns[c := conn])
  }

  lemma AcknowledgeDoes(s: Session, w: World, c: nat, k: int)
    requires Started(w) && c in w.conns && k in w.conns[c].ready && k <= w.conns[c].shard.session.value.sequence
    ensures var conn := w.conns[c];
            var (shard, ok) := Checkpoint.Acknowledge(conn.shard, Some(k));
            var r := PutConn(w, c, conn.(shard := shard, ready := conn.ready - multiset{k},
                                         reconnect := !ok || conn.reconnect));
            Enabled(s, w, Acknowledge(c, k)) && Do(s, w, Acknowledge(c, k)) == r && Started(r)
  {
    Checkpoint.AcknowledgeKeepsSession(w.conns[c].shard, Some(k));
    hide Checkpoint.Acknowledge;
  }

  lemma FlushDoes(s: Session, w: World, c: nat)
    requires Started(w) && c in w.conns && w.conns[c].shard.flushing.None? && w.conns[c].shard.pending.Some?
    ensures var conn := w.conns[c];
            var landed := conn.(shard := Checkpoint.BeginFlush(conn.shard), landed := true);
            var r := PutConn(w, c, landed.(shard := Checkpoint.FlushSucceeds(landed.shard)))
                       .(stored := conn.shard.pending.value);
            Follow(s, w, [FlushBegin(c)] + ([WriteLands(c)] + ([FlushOk(c)] + []))) == Some(r)
  {
    var conn := w.conns[c];
    var flushing := conn.(shard := Checkpoint.BeginFlush(conn.shard), landed := false);
    var landed := flushing.(landed := true);
    var w1 := PutConn(w, c, flushing);
    var w2 := PutConn(w1, c, landed).(stored := conn.shard.pending.value);
    var r := PutConn(w2, c, landed.(shard := Checkpoint.FlushSucceeds(landed.shard)));
    assert Started(w1) && Started(w2);
    assert Enabled(s, w, FlushBegin(c)) && Do(s, w, FlushBegin(c)) == w1;
    assert Enabled(s, w1, WriteLands(c)) && Do(s, w1, WriteLands(c)) == w2;
    assert Enabled(s, w2, FlushOk(c)) && Do(s, w2, FlushOk(c)) == r;
    hide Follow, Do, Enabled;
    NoSteps(s, r);
    FollowOn(s, w2, FlushOk(c), [], r);
    FollowOn(s, w1, WriteLands(c), [FlushOk(c)] + [], r);
    FollowOn(s, w, FlushBegin(c), [WriteLands(c)] + ([FlushOk(c)] + []), r);
    assert r.conns == w.conns[c := landed.(shard := Checkpoint.FlushSucceeds(landed.shard))];
  }

  /** The checkpoint of a shard through the acknowledgement of the next dispatch and a flush. */
  lemma NextIsCommitted(shard: Checkpoint.Shard, k: int)
    requires Checkpoint.Shaped(shard, -1) && shard.session.Some? && shard.flushing.None?
    requires |shard.acks| < Checkpoint.MAX_UNCHECKPOINTED
    requires shard.session.value.sequence == k == Checkpoint.Position(shard) + 1
    ensures var (acked, ok) := Checkpoint.Acknowledge(shard, Some(k));
            var flushed := Checkpoint.FlushSucceeds(Checkpoint.BeginFlush(acked));
            && ok && acked.pending.Some? && k <= acked.pending.value && acked.flushing.None?
            && Checkpoint.Committed(flushed).Some? && Checkpoint.Committed(flushed).value.sequence == k
  {
    var top := Checkpoint.Drain(shard.acks + {k}, k - 1);
    assert k <= top;
  }

  /** From a handler that is done to the stored sequence. */
  lemma CheckpointIsStored(s: Session, w: World, c: nat, k: int) returns (r: World)
    requires Started(w) && c in w.conns && k in w.conns[c].ready && w.conns[c].shard.flushing.None?
    requires Checkpoint.Shaped(w.conns[c].shard, -1) && |w.conns[c].shard.acks| < Checkpoint.MAX_UNCHECKPOINTED
    requires w.conns[c].shard.session.value.sequence == k == Checkpoint.Position(w.conns[c].shard) + 1
    ensures Follow(s, w, Checkpointing(c, k)) == Some(r)
    ensures c in r.conns && r.queue == w.queue && k <= r.stored
    ensures Checkpoint.Committed(r.conns[c].shard).Some? && Checkpoint.Committed(r.conns[c].shard).value.sequence == k
    ensures r.conns[c].handling == w.conns[c].handling && r.conns[c].ready == w.conns[c].ready - multiset{k}
    ensures !w.conns[c].reconnect ==> !r.conns[c].reconnect
  {
    hide Follow, Do, Enabled, Checkpoint.Acknowledge, Checkpoint.Committed, Checkpoint.Position, Checkpoint.Shaped;
    hide Checkpoint.BeginFlush, Checkpoint.FlushSucceeds;
    AcknowledgeDoes(s, w, c, k);
    NextIsCommitted(w.conns[c].shard, k);
    var w1 := Do(s, w, Acknowledge(c, k));
    FlushDoes(s, w1, c);
    var conn := w1.conns[c];
    var landed := conn.(shard := Checkpoint.BeginFlush(conn.shard), landed := true);
    r := PutConn(w1, c, landed.(shard := Checkpoint.FlushSucceeds(landed.shard))).(stored := conn.shard.pending.value);
    FollowOn(s, w, Acknowledge(c, k), [FlushBegin(c)] + ([WriteLands(c)] + ([FlushOk(c)] + [])), r);
  }

  lemma NoSteps(s: Session, w: World)
    ensures Follow(s, w, []) == Some(w)
  {
  }

  /**
    The next dispatch, when nothing disturbs its handling, is logged as the event
    it names, and the stored sequence comes to cover it.
   */
  lemma DispatchIsCheckpointed(
    s: Session, w: World, c: nat, k: int, d: Dispatch.Deps, id: Q.StreamId, now: int, trim: nat) returns (r: World)
    requires Inv(s, w) && c in w.conns && IsIdle(w.conns[c])
    requires k == Checkpoint.Position(w.conns[c].shard) + 1 && s.base < k
    requires d.scope == s.scope && Dispatch.Handle(s.feed(k), d).Enqueue?
    requires Q.Enabled(w.queue, Q.Put(Dispatch.Handle(s.feed(k), d).envelope, id, now, trim))
    ensures Follow(s, w, Handling(c, k, d, id, now, trim)) == Some(r)
    ensures c in r.conns && k <= r.stored
    ensures Checkpoint.Committed(r.conns[c].shard).Some? && Checkpoint.Committed(r.conns[c].shard).value.sequence == k
    ensures exists key :: Dispatch.Names(s.feed(k), s.scope, key) && Q.Logged(r.queue.log, key)
    ensures r.conns[c].handling == w.conns[c].handling && r.conns[c].ready == w.conns[c].ready
  {
    HandlerLogs(s, w, c, k, d, id, now, trim);
    hide Follow, Do, Enabled, Inv, Checkpoint.Committed, Checkpoint.Position, Checkpoint.Shaped;
    hide Q.Logged, Dispatch.Names;
    hide Dispatch.Handle, IsIdle;
    var w1 := Do(s, w, Observe(c, k));
    var w2 := Do(s, w1, Enqueue(c, k, d, id, now, trim, true));
    r := CheckpointIsStored(s, w2, c, k);
    FollowOn(s, w1, Enqueue(c, k, d, id, now, trim, true), Checkpointing(c, k), r);
    FollowOn(s, w, Observe(c, k), [Enqueue(c, k, d, id, now, trim, true)] + Checkpointing(c, k), r);
  }

  /** From the socket to a handler that is done. */
  lemma HandlerLogs(
    s: Session, w: World, c: nat, k: int, d: Dispatch.Deps, id: Q.StreamId, now: int, trim: nat)
    requires Inv(s, w) && c in w.conns && IsIdle(w.conns[c])
    requires k == Checkpoint.Position(w.conns[c].shard) + 1 && s.base < k
    requires d.scope == s.scope && Dispatch.Handle(s.feed(k), d).Enqueue?
    requires Q.Enabled(w.queue, Q.Put(Dispatch.Handle(s.feed(k), d).envelope, id, now, trim))
    ensures Started(w) && Enabled(s, w, Observe(c, k))
    ensures var w1 := Do(s, w, Observe(c, k));
            && Started(w1) && Enabled(s, w1, Enqueue(c, k, d, id, now, trim, true))
            && var w2 := Do(s, w1, Enqueue(c, k, d, id, now, trim, true));
            && Started(w2) && c in w2.conns && k in w2.conns[c].ready && w2.conns[c].shard.flushing.None?
            && w2.conns[c].handling == w.conns[c].handling
            && w2.conns[c].ready == w.conns[c].ready + multiset{k}
            && Checkpoint.Shaped(w2.conns[c].shard, -1)
            && |w2.conns[c].shard.acks| < Checkpoint.MAX_UNCHECKPOINTED
            && w2.conns[c].shard.session.value.sequence == k == Checkpoint.Position(w2.conns[c].shard) + 1
            && exists key :: Dispatch.Names(s.feed(k), s.scope, key) && Q.Logged(w2.queue.log, key)
  {
    hide Q.WellFormed, Q.DedupeSound, Dispatch.Handle, Dispatch.Names, Covered, Resumable, Safe, Q.FreshId, Q.Logged;
    var e := Dispatch.Handle(s.feed(k), d).envelope;
    Q.EnqueueKeeps(w.queue, e, id, now, trim);
    Dispatch.QueuedAsNamed(s.feed(k), d);
    var w1 := Do(s, w, Observe(c, k));
    assert w1 == PutConn(w, c, Receive(w.conns[c], k)).(received := w1.received);
    assert k in w1.conns[c].handling;
    assert Dispatch.Names(s.feed(k), s.scope, Q.KeyOf(e));
  }
}

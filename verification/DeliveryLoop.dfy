/**
  The delivery worker: it peeks at the oldest entries, forwards each and then
  acknowledges or quarantines it, or throws and is restarted by its supervisor.

  A run is driven by a script with one tick per await: what other clients of the
  queue do meanwhile, how the awaited call ends, and whether the signal is
  aborted. Every finite stretch of a run has such a script; when it ends, the
  signal counts as aborted.
 */
module DeliveryLoop {
  import opened Prelude
  import opened ApiForwarder
  import Q = QueueModel
  import opened InboundQueue

  // --------------------------------------------------------------------
  // Error classification

  predicate IsPermanentForwardingError(e: Failure) {
    e.ForwardingError? && !e.retryable
  }

  const DELIVERY_INFRASTRUCTURE_STATUSES: set<nat> := {401, 403, 404, 405, 408, 425, 429}

  predicate IsDeliveryInfrastructureError(e: Failure) {
    e.OtherError? || e.status >= 500 || e.status in DELIVERY_INFRASTRUCTURE_STATUSES
  }

  predicate PermanentlyRejected(o: Outcome) {
    o.Failed? && IsPermanentForwardingError(o.error)
  }

  /**
    Two files list statuses; together they make every failure of the real
    forwarder either one of the delivery path or a permanent rejection of the
    event, so that no failure is left to the counting of attempts.
   */
  lemma FailureIsOneOfTwo(o: Outcome)
    requires FromForwarder(o) && o.Failed?
    ensures IsDeliveryInfrastructureError(o.error) <==> !IsPermanentForwardingError(o.error)
  {
    var r :| Forward(r) == o;
  }

  // --------------------------------------------------------------------
  // The worker

  /** How an awaited call ends: well, or failing before or after its effect. */
  datatype Fault = Fine | Before | After

  /** `trim` is what a write to the dead-letter stream lets go, `elapsed` how long the worker had run. */
  datatype Tick = Tick(others: seq<Q.Step>, fault: Fault, outcome: Outcome, abort: bool, trim: nat, elapsed: nat)

  /** A forward call: the log position of its entry, and what came back. */
  datatype Call = Call(position: nat, id: StreamId, outcome: Outcome)

  /** The steps that clients other than this consumer take. */
  predicate IsProducer(step: Q.Step) {
    step.Put? || step.PutMalformed? || step.Forget?
  }

  predicate ProducersOnly(script: seq<Tick>) {
    forall i, j :: 0 <= i < |script| && 0 <= j < |script[i].others| ==> IsProducer(script[i].others[j])
  }

  ghost predicate RealForwarder(script: seq<Tick>) {
    forall i :: 0 <= i < |script| ==> FromForwarder(script[i].outcome)
  }

  /** Nothing malformed is added, and no forward call is answered with a permanent rejection. */
  predicate IsOutage(script: seq<Tick>) {
    forall i :: 0 <= i < |script| ==>
      !PermanentlyRejected(script[i].outcome) && forall s :: s in script[i].others ==> !s.PutMalformed?
  }

  /** Nothing malformed was logged, and nothing permanently rejected. */
  predicate IsClean(log: seq<Entry>, calls: seq<Call>) {
    && (forall e :: e in log ==> e.content.Event?)
    && (forall c :: c in calls ==> !PermanentlyRejected(c.outcome))
  }

  lemma {:induction false} OthersKeepClean(q: Q.Queue, steps: seq<Q.Step>, calls: seq<Call>)
    requires IsClean(q.log, calls) && forall s :: s in steps ==> !s.PutMalformed?
    ensures IsClean(Q.ApplyAll(q, steps).log, calls)
    decreases |steps|
  {
    if steps != [] {
      assert steps[0] in steps;
      OthersKeepClean(Q.Apply(q, steps[0]), steps[1..], calls);
    }
  }

  /** The call of the await failed, or a forward call would have failed on the delivery path. */
  predicate IsTrouble(t: Tick) {
    !t.fault.Fine? || (t.outcome.Failed? && IsDeliveryInfrastructureError(t.outcome.error))
  }

  /** Everything goes well: no fault, no abort, every forward call delivered, nothing malformed, nothing trimmed. */
  predicate IsCalm(script: seq<Tick>) {
    forall i :: 0 <= i < |script| ==>
      && script[i].fault.Fine? && !script[i].abort && script[i].outcome.Delivered?
      && forall s :: s in script[i].others ==> IsCalmStep(s)
  }

  predicate IsCalmStep(step: Q.Step) {
    step.Forget? || (step.Put? && step.trim == 0)
  }

  /** Nothing malformed is live, and nothing has been quarantined or shed since. */
  ghost predicate StaysCalm(q: Q.Queue, script: seq<Tick>, buried0: set<StreamId>, shed0: set<StreamId>) {
    && IsCalm(script) && (forall e :: e in q.log ==> e.content.Event?)
    && q.quarantined == buried0 && q.shed == shed0
  }

  lemma {:induction false} CalmStepsKeep(q: Q.Queue, steps: seq<Q.Step>)
    requires (forall e :: e in q.log ==> e.content.Event?) && forall s :: s in steps ==> IsCalmStep(s)
    ensures var r := Q.ApplyAll(q, steps);
            && (forall e :: e in r.log ==> e.content.Event?)
            && r.quarantined == q.quarantined && r.shed == q.shed && Q.First(r) == Q.First(q)
    decreases |steps|
  {
    if steps != [] {
      assert steps[0] in steps;
      CalmStepKeeps(q, steps[0]);
      CalmStepsKeep(Q.Apply(q, steps[0]), steps[1..]);
    }
  }

  lemma CalmStepKeeps(q: Q.Queue, step: Q.Step)
    requires (forall e :: e in q.log ==> e.content.Event?) && IsCalmStep(step)
    ensures var r := Q.Apply(q, step);
            && (forall e :: e in r.log ==> e.content.Event?)
            && r.quarantined == q.quarantined && r.shed == q.shed && Q.First(r) == Q.First(q)
  {
    assert q.stream[..0] == [];
  }

  /** Of what was live, what is live no more was shed; nothing else has moved. */
  ghost predicate OnlyShed(q: Q.Queue, r: Q.Queue) {
    && Q.Live(q) <= Q.Live(r) + r.shed && q.shed <= r.shed
    && r.acknowledged == q.acknowledged && r.quarantined == q.quarantined
  }

  lemma {:induction false} ProducersOnlyShed(q: Q.Queue, steps: seq<Q.Step>)
    requires forall s :: s in steps ==> IsProducer(s)
    ensures OnlyShed(q, Q.ApplyAll(q, steps))
    decreases |steps|
  {
    if steps != [] {
      assert steps[0] in steps;
      ProducerOnlySheds(q, steps[0]);
      ProducersOnlyShed(Q.Apply(q, steps[0]), steps[1..]);
    }
  }

  lemma ProducerOnlySheds(q: Q.Queue, step: Q.Step)
    requires IsProducer(step)
    ensures OnlyShed(q, Q.Apply(q, step))
  {
    hide Q.FreshId;
    if (step.Put? || step.PutMalformed?) && Q.Enabled(q, step) {
      var trim := step.trim;
      assert q.stream == q.stream[..trim] + q.stream[trim..];
      Q.IdsConcat(q.stream[..trim], q.stream[trim..]);
      var r := Q.Apply(q, step);
      if r.stream != q.stream {
        Q.IdsConcat(q.stream[trim..], [r.stream[|r.stream| - 1]]);
      }
    }
  }

  function DeliveredIn(calls: seq<Call>): set<StreamId> {
    set c | c in calls && c.outcome.Delivered? :: c.id
  }

  function RejectedIn(calls: seq<Call>): set<StreamId> {
    set c | c in calls && PermanentlyRejected(c.outcome) :: c.id
  }

  function MalformedIn(log: seq<Entry>): set<StreamId> {
    set e | e in log && !e.content.Event? :: e.id
  }

  ghost predicate InOrder(calls: seq<Call>, log: seq<Entry>) {
    && (forall i :: 0 <= i < |calls| ==> calls[i].position < |log| && log[calls[i].position].id == calls[i].id)
    && (forall i, j :: 0 <= i < j < |calls| ==> calls[i].position <= calls[j].position)
  }

  /** The ids of successive forward calls never decrease. */
  lemma IdsNeverDecrease(calls: seq<Call>, log: seq<Entry>, i: nat, j: nat)
    requires InOrder(calls, log) && Q.Sorted(log) && i < j < |calls|
    ensures !Q.Older(calls[j].id, calls[i].id)
  {
  }

  /** What holds of the queue and the calls made, between any two awaits. */
  ghost predicate Sound(q: Q.Queue, calls: seq<Call>, acked0: set<StreamId>) {
    && Q.WellFormed(q) && Q.DedupeSound(q)
    && q.acknowledged <= acked0 + DeliveredIn(calls)
  }

  /** The same with the real forwarder. */
  ghost predicate Strict(q: Q.Queue, calls: seq<Call>, buried0: set<StreamId>) {
    && Q.IsSuffix(q)
    && InOrder(calls, q.log)
    && (calls != [] ==> calls[|calls| - 1].position <= Q.First(q))
    && q.quarantined <= buried0 + RejectedIn(calls) + MalformedIn(q.log)
  }

  /** Whatever is newly quarantined was malformed or permanently rejected by an answer of the API. */
  lemma OutageQuarantinesNothing(q: Q.Queue, calls: seq<Call>, buried0: set<StreamId>)
    requires Strict(q, calls, buried0)
    requires forall c :: c in calls ==> c.outcome.Delivered? || IsDeliveryInfrastructureError(c.outcome.error)
    requires forall c :: c in calls ==> FromForwarder(c.outcome)
    requires forall e :: e in q.log ==> e.content.Event?
    ensures q.quarantined <= buried0
  {
    forall c | c in calls && c.outcome.Failed? ensures !PermanentlyRejected(c.outcome) {
      FailureIsOneOfTwo(c.outcome);
    }
    CleanQuarantinesNothing(q, calls, buried0);
  }

  // --------------------------------------------------------------------
  // How the steps keep these

  lemma ProducerKeeps(q: Q.Queue, step: Q.Step, calls: seq<Call>, acked0: set<StreamId>, buried0: set<StreamId>)
    requires Sound(q, calls, acked0) && IsProducer(step)
    ensures var r := Q.Apply(q, step);
            && Sound(r, calls, acked0) && q.log <= r.log
            && (Strict(q, calls, buried0) ==> Strict(r, calls, buried0) && Q.First(q) <= Q.First(r))
  {
    hide Q.WellFormed, Q.DedupeSound, Strict, Q.First;
    Q.ApplyKeeps(q, step);
    assert Q.Apply(q, step).acknowledged == q.acknowledged;
    if Strict(q, calls, buried0) && Q.Enabled(q, step) {
      ProducerKeepsStrict(q, step, calls, buried0);
    }
  }

  lemma ProducerKeepsStrict(q: Q.Queue, step: Q.Step, calls: seq<Call>, buried0: set<StreamId>)
    requires Strict(q, calls, buried0) && IsProducer(step) && Q.Enabled(q, step) && q.log <= Q.Apply(q, step).log
    ensures Strict(Q.Apply(q, step), calls, buried0) && Q.First(q) <= Q.First(Q.Apply(q, step))
  {
    hide Q.FreshId;
    match step
    case Put(envelope, id, now, trim) =>
      Q.AddKeepsSuffix(q, id, Q.Event(envelope), now, trim);
      LongerLogKeeps(q, Q.Apply(q, step), calls, buried0);
    case PutMalformed(content, id, now, trim) =>
      Q.AddKeepsSuffix(q, id, content, now, trim);
      LongerLogKeeps(q, Q.Apply(q, step), calls, buried0);
    case Forget(_) =>
  }

  lemma LongerLogKeeps(q: Q.Queue, r: Q.Queue, calls: seq<Call>, buried0: set<StreamId>)
    requires Strict(q, calls, buried0) && q.log <= r.log && r.quarantined == q.quarantined
    requires Q.IsSuffix(r) && Q.First(q) <= Q.First(r)
    ensures Strict(r, calls, buried0)
  {
    assert MalformedIn(q.log) <= MalformedIn(r.log);
  }

  lemma {:induction false} ProducersKeep(
      q: Q.Queue, steps: seq<Q.Step>, calls: seq<Call>, acked0: set<StreamId>, buried0: set<StreamId>)
    requires Sound(q, calls, acked0) && forall s :: s in steps ==> IsProducer(s)
    ensures var r := Q.ApplyAll(q, steps);
            && Sound(r, calls, acked0) && q.log <= r.log
            && (Strict(q, calls, buried0) ==> Strict(r, calls, buried0) && Q.First(q) <= Q.First(r))
    decreases |steps|
  {
    if steps != [] {
      assert steps[0] in steps;
      ProducerKeeps(q, steps[0], calls, acked0, buried0);
      ProducersKeep(Q.Apply(q, steps[0]), steps[1..], calls, acked0, buried0);
    }
  }

  /** Burying log entry `n` keeps everything, and moves the live suffix past it. */
  lemma BuryKeeps(q: Q.Queue, calls: seq<Call>, acked0: set<StreamId>, buried0: set<StreamId>,
                  n: nat, id: StreamId, attempts: nat, trim: nat)
    requires Sound(q, calls, acked0) && trim <= |q.dead|
    ensures var r := Q.Quarantine(q, id, attempts, trim).0;
            && Sound(r, calls, acked0)
            && (Strict(q, calls, buried0) && n < |q.log| && n <= Q.First(q) && q.log[n].id == id
                && id in RejectedIn(calls) + MalformedIn(q.log) ==>
                  Strict(r, calls, buried0) && n + 1 <= Q.First(r) && Q.First(q) <= Q.First(r))
  {
    hide Q.WellFormed, Q.DedupeSound, InOrder, Q.Remove;
    Q.RemovalKeeps(q, id, attempts, trim);
    if Q.IsSuffix(q) && n < |q.log| && n <= Q.First(q) && q.log[n].id == id {
      Q.RemoveKeepsSuffix(q, n);
    }
  }

  /** So does acknowledging it, once it was delivered. */
  lemma AcknowledgeKeeps(q: Q.Queue, calls: seq<Call>, acked0: set<StreamId>, buried0: set<StreamId>,
                         n: nat, id: StreamId)
    requires Sound(q, calls, acked0) && id in DeliveredIn(calls)
    ensures var r := Q.Acknowledge(q, id);
            && Sound(r, calls, acked0)
            && (Strict(q, calls, buried0) && n < |q.log| && n <= Q.First(q) && q.log[n].id == id ==>
                  Strict(r, calls, buried0) && n + 1 <= Q.First(r) && Q.First(q) <= Q.First(r))
  {
    hide Q.WellFormed, Q.DedupeSound, InOrder, Q.Remove;
    Q.RemovalKeeps(q, id, 0, 0);
    if Q.IsSuffix(q) && n < |q.log| && n <= Q.First(q) && q.log[n].id == id {
      Q.RemoveKeepsSuffix(q, n);
    }
  }

  lemma AttemptKeeps(q: Q.Queue, calls: seq<Call>, acked0: set<StreamId>, buried0: set<StreamId>, e: Entry)
    requires Sound(q, calls, acked0) && e in q.log
    ensures Sound(Q.RecordAttempt(q, e.id).0, calls, acked0)
    ensures Strict(q, calls, buried0) ==> Strict(Q.RecordAttempt(q, e.id).0, calls, buried0)
  {
    assert e.id in Q.Ids(q.log);
  }

  lemma CallKeeps(q: Q.Queue, calls: seq<Call>, c: Call, acked0: set<StreamId>, buried0: set<StreamId>)
    requires Sound(q, calls, acked0)
    ensures Sound(q, calls + [c], acked0)
    ensures Strict(q, calls, buried0) && c.position <= Q.First(q) && c.position < |q.log|
            && q.log[c.position].id == c.id && (calls != [] ==> calls[|calls| - 1].position <= c.position) ==>
              Strict(q, calls + [c], buried0)
    ensures c.outcome.Delivered? ==> c.id in DeliveredIn(calls + [c])
    ensures PermanentlyRejected(c.outcome) ==> c.id in RejectedIn(calls + [c])
  {
  }

  ghost predicate InLog(log: seq<Entry>, entries: seq<Entry>) {
    forall k :: 0 <= k < |entries| ==> entries[k] in log
  }

  /** `entries` are the log's own, from position `p` on. */
  ghost predicate Stretch(log: seq<Entry>, entries: seq<Entry>, p: int) {
    0 <= p && p + |entries| <= |log| && forall k :: 0 <= k < |entries| ==> log[p + k] == entries[k]
  }

  datatype EntryResult = Done | Retry | Threw

  class DeliveryWorker {
    const queue: DiscordInboundQueue
    var script: seq<Tick>
    var aborted: bool
    ghost var calls: seq<Call>
    ghost const genuine: bool
    ghost const outage: bool
    ghost const calm: bool
    ghost const shed0: set<StreamId>
    /** The ticks behind us. */
    ghost var consumed: seq<Tick>
    ghost const acked0: set<StreamId>
    ghost const buried0: set<StreamId>

    /**
      `genuine` says that the forward outcomes come from DiscordApiForwarder, and
      `outage` that nothing is malformed or permanently rejected, and `calm` that
      everything goes well. The worker goes
      on from the calls of the workers before it, which began when `acked` was
      acknowledged and `buried` quarantined.
     */
    constructor (queue: DiscordInboundQueue, script: seq<Tick>,
                 ghost genuine: bool, ghost outage: bool, ghost calm: bool,
                 ghost earlier: seq<Call>, ghost acked: set<StreamId>, ghost buried: set<StreamId>)
      requires ProducersOnly(script) && Sound(queue.View(), earlier, acked)
      requires genuine ==> Strict(queue.View(), earlier, buried) && RealForwarder(script)
      requires outage ==> IsOutage(script) && IsClean(queue.log, earlier)
      requires calm ==> genuine && StaysCalm(queue.View(), script, buried, queue.shed)
      ensures Valid() && this.queue == queue && this.genuine == genuine && this.outage == outage && calls == earlier
      ensures this.calm == calm && this.script == script && !aborted && consumed == [] && shed0 == queue.shed
      ensures acked0 == acked && buried0 == buried
    {
      this.queue, this.script, this.aborted, this.calls := queue, script, false, earlier;
      this.genuine, this.outage, this.acked0, this.buried0 := genuine, outage, acked, buried;
      this.calm, this.shed0, this.consumed := calm, queue.shed, [];
    }

    ghost predicate Valid()
      reads this, queue
    {
      && ProducersOnly(script)
      && (genuine ==> RealForwarder(script))
      && Sound(queue.View(), calls, acked0)
      && (genuine ==> Strict(queue.View(), calls, buried0))
      && (outage ==> IsOutage(script) && IsClean(queue.log, calls))
      && (calm ==> genuine && StaysCalm(queue.View(), script, buried0, shed0))
    }

    /** A tick consumed since then carried trouble, or the script is at its end. */
    ghost predicate TroubleSince(n: nat)
      reads this
    {
      script == [] || exists k :: n <= k < |consumed| && IsTrouble(consumed[k])
    }

    /** The last call made was for log position `n` or an earlier one. */
    ghost predicate CallsUpTo(n: int)
      reads this
    {
      calls != [] ==> calls[|calls| - 1].position <= n
    }

    /** One await: the other clients move, and the signal may be aborted. */
    method Await() returns (t: Tick)
      requires Valid()
      modifies this`script, this`aborted, this`consumed, queue
      ensures Valid() && old(queue.log) <= queue.log && OnlyShed(old(queue.View()), queue.View())
      ensures genuine ==> FromForwarder(t.outcome) && Q.First(old(queue.View())) <= Q.First(queue.View())
      ensures outage || calm ==> !PermanentlyRejected(t.outcome)
      ensures old(aborted) ==> aborted
      ensures |script| < |old(script)| || (script == old(script) && aborted)
      ensures if old(script) == [] then script == [] && consumed == old(consumed) && t.fault.Fine?
              else t == old(script)[0] && script == old(script)[1..] && consumed == old(consumed) + [t]
      ensures calm && old(script) != [] ==> t.fault.Fine? && t.outcome.Delivered? && aborted == old(aborted)
      ensures calm ==> Q.First(queue.View()) == Q.First(old(queue.View()))
    {
      hide Sound, Strict, Q.WellFormed, Q.DedupeSound, IsClean, OnlyShed;
      if script == [] {
        aborted := true;
        t := Tick([], Fine, Failed(OtherError), true, 0, 0);
        assert ApiForwarder.Forward(NoAnswer) == t.outcome;
        SameIsOnlyShed(queue.View());
        return;
      }
      t := script[0];
      script, consumed := script[1..], consumed + [t];
      ProducersKeep(queue.View(), t.others, calls, acked0, buried0);
      ProducersOnlyShed(queue.View(), t.others);
      if outage { OthersKeepClean(queue.View(), t.others, calls); }
      if calm { CalmStepsKeep(queue.View(), t.others); }
      queue.Others(t.others);
      aborted := aborted || t.abort;
    }

    /** An await whose call has no effect on the queue: a depth read or a status update. */
    method Report() returns (ok: bool)
      requires Valid()
      modifies this`script, this`aborted, this`consumed, queue
      ensures Valid() && old(queue.log) <= queue.log && OnlyShed(old(queue.View()), queue.View())
      ensures genuine ==> Q.First(old(queue.View())) <= Q.First(queue.View())
      ensures old(aborted) ==> aborted
      ensures |script| < |old(script)| || (script == old(script) && aborted)
      ensures old(consumed) <= consumed && (!ok ==> TroubleSince(|old(consumed)|))
      ensures calm && old(script) != [] ==> ok && |script| == |old(script)| - 1 && aborted == old(aborted)
    {
      var t := Await();
      ok := t.fault.Fine?;
      assert old(script) != [] ==> consumed[|old(consumed)|] == t;
    }

    /** The depth read and the status update that follow every change of the queue. */
    method ReportTwice() returns (ok: bool)
      requires Valid()
      modifies this`script, this`aborted, this`consumed, queue
      ensures Valid() && old(queue.log) <= queue.log && OnlyShed(old(queue.View()), queue.View())
      ensures genuine ==> Q.First(old(queue.View())) <= Q.First(queue.View())
      ensures old(aborted) ==> aborted
      ensures |script| <= |old(script)|
      ensures old(consumed) <= consumed && (!ok ==> TroubleSince(|old(consumed)|))
      ensures calm && 2 <= |old(script)| ==> ok && |script| == |old(script)| - 2 && aborted == old(aborted)
    {
      ghost var q := queue.View();
      ok := Report();
      ghost var r := queue.View();
      if ok { ok := Report(); }
      SameIsOnlyShed(queue.View());
      OnlyShedTwice(q, r, queue.View());
    }

    /** Quarantine of entry `n`, and the report after it. */
    method Bury(e: Entry, attempts: nat, ghost n: nat) returns (r: EntryResult)
      requires Valid() && e in queue.log && !calm
      requires genuine ==> e.id in RejectedIn(calls) || !e.content.Event?
      requires genuine ==> n < |queue.log| && queue.log[n] == e && n <= Q.First(queue.View())
      modifies this`script, this`aborted, this`consumed, queue
      ensures Valid() && old(queue.log) <= queue.log && !r.Retry?
      ensures genuine && r.Done? ==> n + 1 <= Q.First(queue.View())
      ensures genuine ==> Q.First(old(queue.View())) <= Q.First(queue.View())
      ensures |script| <= |old(script)| && (old(aborted) ==> aborted)
      ensures old(consumed) <= consumed && (r.Threw? ==> TroubleSince(|old(consumed)|))
      ensures r.Done? && e.id in Q.Live(old(queue.View())) + old(queue.shed) ==> e.id in queue.quarantined + queue.shed
    {
      hide Sound, Strict, Q.Quarantine, Q.Live, IsClean;
      ghost var q := queue.View();
      var t := Await();
      assert old(script) != [] ==> consumed[|old(consumed)|] == t;
      if t.fault.Before? { return Threw; }
      var trim := if t.trim <= |queue.dead| then t.trim else 0;
      if !e.content.Event? { assert e.id in MalformedIn(queue.log); }
      ghost var q1 := queue.View();
      BuryKeeps(q1, calls, acked0, buried0, n, e.id, attempts, trim);
      BuriedIsThere(q, q1, calls, acked0, e.id, attempts, trim);
      var _ := queue.Quarantine(e.id, attempts, trim);
      if t.fault.After? { return Threw; }
      ghost var q2 := queue.View();
      var ok := ReportTwice();
      StillThere(q2, queue.View(), e.id);
      return if ok then Done else Threw;
    }

    /** Acknowledgement of entry `n`, and the report after it. */
    method Acknowledge(e: Entry, ghost n: nat) returns (r: EntryResult)
      requires Valid() && e in queue.log && e.id in DeliveredIn(calls)
      requires genuine ==> n < |queue.log| && queue.log[n] == e && n <= Q.First(queue.View())
      modifies this`script, this`aborted, this`consumed, queue
      ensures Valid() && old(queue.log) <= queue.log && !r.Retry?
      ensures genuine && r.Done? ==> n + 1 <= Q.First(queue.View())
      ensures genuine ==> Q.First(old(queue.View())) <= Q.First(queue.View())
      ensures |script| <= |old(script)| && (old(aborted) ==> aborted)
      ensures old(consumed) <= consumed && (r.Threw? ==> TroubleSince(|old(consumed)|))
      ensures r.Done? && e.id in Q.Live(old(queue.View())) + old(queue.shed) ==> e.id in queue.acknowledged + queue.shed
      ensures calm && 3 <= |old(script)| ==> r.Done? && |script| == |old(script)| - 3 && aborted == old(aborted)
    {
      hide Sound, Strict, Q.Live, IsClean, StaysCalm, Q.Remove;
      ghost var q := queue.View();
      var t := Await();
      assert old(script) != [] ==> consumed[|old(consumed)|] == t;
      if t.fault.Before? { return Threw; }
      ghost var q1 := queue.View();
      AcknowledgeKeeps(q1, calls, acked0, buried0, n, e.id);
      AcknowledgedIsThere(q, q1, calls, acked0, e.id);
      if calm { AcknowledgeStaysCalm(q1, script, buried0, shed0, e.id); }
      queue.Acknowledge(e.id);
      if t.fault.After? { return Threw; }
      ghost var q2 := queue.View();
      var ok := ReportTwice();
      StillThere(q2, queue.View(), e.id);
      return if ok then Done else Threw;
    }

    method RecordAttempt(e: Entry) returns (ok: bool, attempts: nat)
      requires Valid() && e in queue.log
      modifies this`script, this`aborted, this`consumed, queue
      ensures Valid() && old(queue.log) <= queue.log && OnlyShed(old(queue.View()), queue.View())
      ensures genuine ==> Q.First(old(queue.View())) <= Q.First(queue.View())
      ensures |script| <= |old(script)| && (old(aborted) ==> aborted)
      ensures old(consumed) <= consumed && (!ok ==> TroubleSince(|old(consumed)|))
      ensures calm && 1 <= |old(script)| ==> ok && |script| == |old(script)| - 1 && aborted == old(aborted)
    {
      hide Sound, Strict, IsClean;
      var t := Await();
      assert old(script) != [] ==> consumed[|old(consumed)|] == t;
      if t.fault.Before? { return false, 0; }
      AttemptKeeps(queue.View(), calls, acked0, buried0, e);
      attempts := queue.RecordAttempt(e.id);
      ok := t.fault.Fine?;
    }

    /** One forward call for entry `n`. */
    method Forward(e: Entry, ghost n: nat) returns (outcome: Outcome)
      requires Valid() && e in queue.log
      requires genuine ==> n < |queue.log| && queue.log[n] == e && n <= Q.First(queue.View()) && CallsUpTo(n)
      modifies this`script, this`aborted, this`consumed, this`calls, queue
      ensures Valid() && old(queue.log) <= queue.log && calls == old(calls) + [Call(n, e.id, outcome)]
      ensures OnlyShed(old(queue.View()), queue.View())
      ensures genuine ==> FromForwarder(outcome) && Q.First(old(queue.View())) <= Q.First(queue.View())
      ensures outcome.Delivered? ==> e.id in DeliveredIn(calls)
      ensures PermanentlyRejected(outcome) ==> e.id in RejectedIn(calls)
      ensures |script| <= |old(script)| && (old(aborted) ==> aborted)
      ensures old(consumed) <= consumed
      ensures outcome.Failed? && IsDeliveryInfrastructureError(outcome.error) ==> TroubleSince(|old(consumed)|)
      ensures calm && 1 <= |old(script)| ==>
                outcome.Delivered? && |script| == |old(script)| - 1 && aborted == old(aborted)
      ensures calm ==> !PermanentlyRejected(outcome)
    {
      hide Q.WellFormed, Q.DedupeSound, Sound, Strict, OnlyShed;
      var t := Await();
      assert old(script) != [] ==> consumed[|old(consumed)|] == t;
      outcome := t.outcome;
      CallKeeps(queue.View(), calls, Call(n, e.id, outcome), acked0, buried0);
      calls := calls + [Call(n, e.id, outcome)];
    }

    /**
      One entry. It throws only in trouble. A live entry that is done with was
      acknowledged if it was delivered, and else quarantined, unless it was shed
      meanwhile.
     */
    method ProcessEntry(e: Entry, maxAttempts: nat, ghost n: nat) returns (r: EntryResult)
      requires Valid() && e in queue.log
      requires genuine ==> n < |queue.log| && queue.log[n] == e && n <= Q.First(queue.View()) && CallsUpTo(n)
      modifies this`script, this`aborted, this`consumed, this`calls, queue
      ensures Valid() && old(queue.log) <= queue.log && old(calls) <= calls
      ensures genuine ==> !r.Retry? && CallsUpTo(n) && (r.Done? ==> n + 1 <= Q.First(queue.View()))
      ensures genuine ==> Q.First(old(queue.View())) <= Q.First(queue.View())
      ensures |script| <= |old(script)| && (old(aborted) ==> aborted)
      ensures old(consumed) <= consumed && (r.Threw? ==> TroubleSince(|old(consumed)|))
      ensures calls == old(calls) || (e.content.Event? && exists o :: calls == old(calls) + [Call(n, e.id, o)])
      ensures r.Done? && e.content.Event? ==> |calls| == |old(calls)| + 1
      ensures r.Done? && e.id in Q.Live(old(queue.View())) ==>
                if e.content.Event? && calls[|old(calls)|].outcome.Delivered?
                then e.id in queue.acknowledged + queue.shed else e.id in queue.quarantined + queue.shed
      ensures calm && 5 <= |old(script)| ==> r.Done? && |script| == |old(script)| - 5 && aborted == old(aborted)
    {
      hide Q.WellFormed, Q.DedupeSound, Sound, Strict, IsClean, OnlyShed, Q.Live;
      ghost var q := queue.View();
      if !e.content.Event? {
        if calm { CalmIsEvent(queue.View(), script, buried0, shed0, e); }
        r := Bury(e, 0, n);
        return;
      }
      hide StaysCalm;
      var ok, attempts := RecordAttempt(e);
      if !ok { return Threw; }
      ghost var q1 := queue.View();
      var outcome := Forward(e, n);
      OnlyShedTwice(q, q1, queue.View());
      ShedOrLive(q, queue.View(), e.id);
      match outcome
      case Delivered =>
        r := Acknowledge(e, n);
      case Failed(error) =>
        if IsDeliveryInfrastructureError(error) { return Threw; }
        if genuine { FailureIsOneOfTwo(outcome); }
        var permanent := IsPermanentForwardingError(error);
        var attemptsExhausted := attempts >= maxAttempts;
        if permanent || attemptsExhausted {
          r := Bury(e, attempts, n);
          return;
        }
        ok := ReportTwice();
        return if ok then Retry else Threw;
    }

    method PeekOldest() returns (ok: bool, entries: seq<Entry>)
      requires Valid()
      modifies this`script, this`aborted, this`consumed, queue
      ensures Valid() && old(queue.log) <= queue.log
      ensures ok ==> InLog(queue.log, entries)
      ensures ok && genuine ==> Stretch(queue.log, entries, Q.First(queue.View())) && CallsUpTo(Q.First(queue.View()))
      ensures |script| < |old(script)| || (script == old(script) && aborted)
      ensures old(aborted) ==> aborted
      ensures genuine ==> Q.First(old(queue.View())) <= Q.First(queue.View())
      ensures old(consumed) <= consumed && (!ok ==> TroubleSince(|old(consumed)|))
      ensures entries == Q.Peek(queue.View())
      ensures calm && old(script) != [] ==> ok && |script| == |old(script)| - 1 && aborted == old(aborted)
      ensures calm ==> Q.First(queue.View()) == Q.First(old(queue.View()))
    {
      hide Q.WellFormed, Q.DedupeSound, InOrder, IsClean, OnlyShed, StaysCalm;
      var t := Await();
      assert old(script) != [] ==> consumed[|old(consumed)|] == t;
      entries := queue.Peek();
      Q.PeekIsOldest(queue.View());
      ok := t.fault.Fine?;
    }

    /** The entries of one peek, oldest first. When all goes well, five awaits see one of them off. */
    method ProcessBatch(entries: seq<Entry>, maxAttempts: nat, ghost p: int) returns (r: EntryResult)
      requires Valid() && !aborted && InLog(queue.log, entries)
      requires genuine ==> Stretch(queue.log, entries, p) && p <= Q.First(queue.View()) && CallsUpTo(p)
      modifies this`script, this`aborted, this`consumed, this`calls, queue
      ensures Valid() && old(queue.log) <= queue.log && old(calls) <= calls
      ensures genuine ==> !r.Retry? && Q.First(old(queue.View())) <= Q.First(queue.View())
      ensures |script| <= |old(script)|
      ensures old(consumed) <= consumed && (r.Threw? ==> TroubleSince(|old(consumed)|))
      ensures calm ==> forall i :: 0 <= i <= |entries| && 5 * i <= |old(script)| ==> p + i <= Q.First(queue.View())
      ensures calm && 5 * |entries| <= |old(script)| ==>
                r.Done? && |script| == |old(script)| - 5 * |entries| && !aborted
    {
      hide Q.WellFormed, Q.DedupeSound, Sound, Strict, IsClean, StaysCalm;
      r := Done;
      var i := 0;
      while i < |entries|
        invariant 0 <= i <= |entries|
        invariant Valid() && old(queue.log) <= queue.log && old(calls) <= calls
        invariant InLog(queue.log, entries) && !r.Threw?
        invariant genuine ==> Stretch(queue.log, entries, p) && p + i <= Q.First(queue.View())
        invariant genuine ==> CallsUpTo(p + i) && !r.Retry? && Q.First(old(queue.View())) <= Q.First(queue.View())
        invariant |script| <= |old(script)| && old(consumed) <= consumed
        invariant calm && 5 * i <= |old(script)| ==> |script| == |old(script)| - 5 * i && !aborted
      {
        if aborted { return; }
        var one := ProcessEntry(entries[i], maxAttempts, if genuine then p + i else 0);
        if !one.Done? { r := one; }
        if one.Threw? { return; }
        i := i + 1;
      }
    }

    /** One turn of the loop: a peek, and its entries, or a pause if there is none. */
    method Turn(maxAttempts: nat, ghost total: nat) returns (threw: bool, retry: bool)
      requires Valid() && !aborted && total <= |queue.log|
      modifies this`script, this`aborted, this`consumed, this`calls, queue
      ensures Valid() && old(queue.log) <= queue.log && old(calls) <= calls
      ensures |script| < |old(script)| || (script == old(script) && aborted)
      ensures old(consumed) <= consumed && (threw ==> TroubleSince(|old(consumed)|))
      ensures genuine ==> !retry && Q.First(old(queue.View())) <= Q.First(queue.View())
      ensures calm && old(IsOnCourse(total)) ==> IsOnCourse(total) && (threw ==> total <= Q.First(queue.View()))
    {
      hide Valid, CallsUpTo, InLog, Stretch, OnlyShed, Q.First;
      CalmIsGenuine();
      ghost var enough := calm && IsOnCourse(total);
      threw, retry := false, false;
      var ok, entries := PeekOldest();
      if !ok { return true, false; }
      Q.PeekShows(queue.View());
      FirstIs(queue.View());
      if entries == [] {
        var _ := Await();
        return false, false;
      }
      if aborted { return; }
      ghost var first, ticks := Q.First(queue.View()), |script|;
      var r := ProcessBatch(entries, maxAttempts, Q.First(queue.View()));
      if enough && first < total {
        ghost var m := Min(|entries|, total - first);
        assert 5 * m <= ticks;
        assert first + m <= Q.First(queue.View());
      }
      return r.Threw?, r.Retry?;
    }

    /**
      runDeliveryLoop: until the signal is aborted, or something throws, which it
      does only in trouble. When all goes well long enough, the first `total` entries
      of the log are behind the oldest live entry at the end.
     */
    method RunDeliveryLoop(pollMs: nat, maxAttempts: nat, maxBackoffMs: nat, ghost total: nat) returns (threw: bool)
      requires Valid() && total <= |queue.log|
      modifies this`script, this`aborted, this`consumed, this`calls, queue
      ensures Valid() && old(queue.log) <= queue.log && old(calls) <= calls
      ensures threw || aborted
      ensures |script| <= |old(script)| && (old(aborted) ==> aborted && script == old(script))
      ensures old(consumed) <= consumed && (threw ==> TroubleSince(|old(consumed)|))
      ensures genuine ==> Q.First(old(queue.View())) <= Q.First(queue.View())
      ensures calm && old(IsOnCourse(total)) ==> total <= Q.First(queue.View())
    {
      hide Valid, OnlyShed, Q.First;
      CalmIsGenuine();
      ghost var enough := calm && IsOnCourse(total);
      var failureDelayMs := pollMs;
      while !aborted
        invariant Valid() && old(queue.log) <= queue.log && old(calls) <= calls
        invariant |script| <= |old(script)| && old(consumed) <= consumed
        invariant genuine ==> Q.First(old(queue.View())) <= Q.First(queue.View())
        invariant enough ==> IsOnCourse(total)
        invariant old(aborted) ==> aborted && script == old(script)
        decreases |script|, !aborted
      {
        var retry;
        threw, retry := Turn(maxAttempts, total);
        if threw { return true; }
        if retry {
          var _ := Await();
          failureDelayMs := Min(failureDelayMs * 2, maxBackoffMs);
        } else {
          failureDelayMs := pollMs;
        }
      }
      return false;
    }

    lemma CalmIsGenuine()
      requires Valid()
      ensures calm ==> genuine
    {
    }

    /** What was logged up to there is done with, or there are six ticks for each entry of it that is left. */
    ghost predicate IsOnCourse(total: nat)
      reads this, queue
    {
      total <= Q.First(queue.View()) || (!aborted && 6 * (total - Q.First(queue.View())) <= |script|)
    }

    /** One start of the loop: a status update, and the loop until it ends. */
    method StartOnce(pollMs: nat, maxAttempts: nat, maxBackoffMs: nat, ghost total: nat)
      requires Valid() && total <= |queue.log|
      modifies this`script, this`aborted, this`consumed, this`calls, queue
      ensures Valid() && old(queue.log) <= queue.log && old(calls) <= calls
      ensures |script| < |old(script)| || (script == old(script) && aborted)
      ensures genuine ==> Q.First(old(queue.View())) <= Q.First(queue.View())
      ensures calm && !old(aborted) && 6 * (total - Q.First(old(queue.View()))) < |old(script)| ==>
                total <= Q.First(queue.View())
    {
      hide Valid, OnlyShed, TroubleSince;
      CalmIsGenuine();
      var ok := Report();
      if ok {
        var threw := RunDeliveryLoop(pollMs, maxAttempts, maxBackoffMs, total);
      }
    }

    /** runSupervisedDeliveryLoop: restarts the loop, with a capped backoff, until aborted. */
    method RunSupervisedDeliveryLoop(pollMs: nat, maxAttempts: nat, maxBackoffMs: nat, restartMaxBackoffMs: nat)
      returns (restartDelayMs: nat)
      requires Valid()
      modifies this`script, this`aborted, this`consumed, this`calls, queue
      ensures Valid() && aborted && old(queue.log) <= queue.log && old(calls) <= calls
      ensures restartDelayMs <= Max(pollMs, restartMaxBackoffMs)
      ensures calm && !old(aborted) && 6 * |old(queue.stream)| < |old(script)| ==>
                |old(queue.log)| <= Q.First(queue.View())
    {
      hide Valid, OnlyShed, TroubleSince, Q.First;
      CalmIsGenuine();
      FirstIs(queue.View());
      ghost var total := |queue.log|;
      ghost var enough := calm && !aborted && 6 * |queue.stream| < |script|;
      restartDelayMs := pollMs;
      while !aborted
        invariant Valid() && old(queue.log) <= queue.log && old(calls) <= calls
        invariant restartDelayMs <= Max(pollMs, restartMaxBackoffMs)
        invariant enough ==>
          total <= Q.First(queue.View()) || (!aborted && script == old(script) && queue.View() == old(queue.View()))
        decreases |script|, !aborted
      {
        StartOnce(pollMs, maxAttempts, maxBackoffMs, total);
        if aborted { break; }
        var t := Await();
        if t.elapsed > restartMaxBackoffMs * 2 { restartDelayMs := pollMs; }
        var _ := Await();
        restartDelayMs := Min(restartDelayMs * 2, restartMaxBackoffMs);
      }
      var _ := Report();
    }
  }

  lemma FirstIs(q: Q.Queue)
    ensures Q.First(q) + |q.stream| == |q.log|
  {
  }

  lemma SameIsOnlyShed(q: Q.Queue)
    ensures OnlyShed(q, q)
  {
  }

  lemma OnlyShedTwice(q: Q.Queue, r: Q.Queue, u: Q.Queue)
    requires OnlyShed(q, r) && OnlyShed(r, u)
    ensures OnlyShed(q, u)
  {
  }

  lemma ShedOrLive(q: Q.Queue, r: Q.Queue, id: StreamId)
    requires OnlyShed(q, r)
    ensures id in Q.Live(q) + q.shed ==> id in Q.Live(r) + r.shed
  {
  }

  lemma StillThere(q: Q.Queue, r: Q.Queue, id: StreamId)
    requires OnlyShed(q, r)
    ensures id in q.acknowledged + q.shed ==> id in r.acknowledged + r.shed
    ensures id in q.quarantined + q.shed ==> id in r.quarantined + r.shed
  {
  }

  /** A quarantine finds the entry live, or it was shed since. */
  lemma BuriedIsThere(q: Q.Queue, q1: Q.Queue, calls: seq<Call>, acked0: set<StreamId>,
                      id: StreamId, attempts: nat, trim: nat)
    requires OnlyShed(q, q1) && Sound(q1, calls, acked0) && trim <= |q1.dead|
    ensures var r := Q.Quarantine(q1, id, attempts, trim).0;
            r.log == q1.log && (id in Q.Live(q) + q.shed ==> id in r.quarantined + r.shed)
  {
    hide Q.WellFormed;
    if id in Q.Live(q1) { Q.QuarantineMoves(q1, id, attempts, trim); }
  }

  lemma AcknowledgedIsThere(q: Q.Queue, q1: Q.Queue, calls: seq<Call>, acked0: set<StreamId>, id: StreamId)
    requires OnlyShed(q, q1) && Sound(q1, calls, acked0)
    ensures var r := Q.Acknowledge(q1, id);
            id in Q.Live(q) + q.shed ==> id in r.acknowledged + r.shed
  {
    hide Q.WellFormed;
    if id in Q.Live(q1) { Q.AcknowledgeMoves(q1, id); }
  }

  lemma AcknowledgeStaysCalm(q: Q.Queue, script: seq<Tick>, buried0: set<StreamId>, shed0: set<StreamId>, id: StreamId)
    requires StaysCalm(q, script, buried0, shed0)
    ensures StaysCalm(Q.Acknowledge(q, id), script, buried0, shed0)
  {
  }

  lemma CalmIsEvent(q: Q.Queue, script: seq<Tick>, buried0: set<StreamId>, shed0: set<StreamId>, e: Entry)
    requires StaysCalm(q, script, buried0, shed0) && e in q.log
    ensures e.content.Event?
  {
  }

  lemma CleanQuarantinesNothing(q: Q.Queue, calls: seq<Call>, buried0: set<StreamId>)
    requires Strict(q, calls, buried0) && IsClean(q.log, calls)
    ensures q.quarantined <= buried0
  {
    assert RejectedIn(calls) == {} && MalformedIn(q.log) == {};
  }

  /** Before the first worker. */
  lemma NoCallsYet(q: Q.Queue)
    requires Q.WellFormed(q) && Q.DedupeSound(q)
    ensures (forall e :: e in q.log ==> e.content.Event?) ==> IsClean(q.log, [])
    ensures Sound(q, [], q.acknowledged)
    ensures Q.IsSuffix(q) ==> Strict(q, [], q.quarantined)
  {
  }

  /** One worker's stretch, and what other clients do between it and the next. */
  datatype Stint = Stint(script: seq<Tick>, between: seq<Q.Step>)

  predicate ProducersBetween(stints: seq<Stint>) {
    forall n :: 0 <= n < |stints| ==>
      ProducersOnly(stints[n].script) && forall s :: s in stints[n].between ==> IsProducer(s)
  }

  predicate OutageThroughout(stints: seq<Stint>) {
    forall n :: 0 <= n < |stints| ==>
      IsOutage(stints[n].script) && forall s :: s in stints[n].between ==> !s.PutMalformed?
  }

  /**
    Workers one after the other, as when the secret is rotated or another service
    takes the lead: each starts when the one before has unwound. The calls of all
    of them together are in log order, and together they justify what was
    acknowledged and quarantined. An outage of any length, over any number of
    workers, quarantines nothing.
   */
  method RunSuccessiveWorkers(queue: DiscordInboundQueue, stints: seq<Stint>, pollMs: nat, maxAttempts: nat,
                              maxBackoffMs: nat, restartMaxBackoffMs: nat)
    returns (ghost calls: seq<Call>)
    requires Q.WellFormed(queue.View()) && Q.DedupeSound(queue.View()) && Q.IsSuffix(queue.View())
    requires ProducersBetween(stints) && forall n :: 0 <= n < |stints| ==> RealForwarder(stints[n].script)
    modifies queue
    ensures Q.WellFormed(queue.View()) && Q.DedupeSound(queue.View()) && old(queue.log) <= queue.log
    ensures Q.IsSuffix(queue.View()) && InOrder(calls, queue.log)
    ensures queue.acknowledged <= old(queue.acknowledged) + DeliveredIn(calls)
    ensures queue.quarantined <= old(queue.quarantined) + RejectedIn(calls) + MalformedIn(queue.log)
    ensures forall i, j :: 0 <= i < j < |calls| ==> !Q.Older(calls[j].id, calls[i].id)
    ensures OutageThroughout(stints) && (forall e :: e in old(queue.log) ==> e.content.Event?) ==>
              queue.quarantined <= old(queue.quarantined)
  {
    hide Sound, Strict, Q.WellFormed, Q.DedupeSound, Q.IsSuffix, IsClean, InOrder, IsOutage, DeliveredIn;
    hide RejectedIn, MalformedIn;
    ghost var acked, buried := queue.acknowledged, queue.quarantined;
    calls := [];
    NoCallsYet(queue.View());
    ghost var outage := OutageThroughout(stints) && forall e :: e in queue.log ==> e.content.Event?;
    for n := 0 to |stints|
      invariant Sound(queue.View(), calls, acked) && Strict(queue.View(), calls, buried)
      invariant outage ==> IsClean(queue.log, calls)
      invariant old(queue.log) <= queue.log
    {
      var worker := new DeliveryWorker(queue, stints[n].script, true, outage, false, calls, acked, buried);
      var _ := worker.RunSupervisedDeliveryLoop(pollMs, maxAttempts, maxBackoffMs, restartMaxBackoffMs);
      calls := worker.calls;
      ProducersKeep(queue.View(), stints[n].between, calls, acked, buried);
      if outage { OthersKeepClean(queue.View(), stints[n].between, calls); }
      queue.Others(stints[n].between);
    }
    AllTogether(queue.View(), calls, acked, buried);
  }

  lemma AllTogether(q: Q.Queue, calls: seq<Call>, acked0: set<StreamId>, buried0: set<StreamId>)
    requires Sound(q, calls, acked0) && Strict(q, calls, buried0)
    ensures Q.WellFormed(q) && Q.DedupeSound(q) && Q.IsSuffix(q) && InOrder(calls, q.log)
    ensures q.acknowledged <= acked0 + DeliveredIn(calls)
    ensures q.quarantined <= buried0 + RejectedIn(calls) + MalformedIn(q.log)
    ensures forall i, j :: 0 <= i < j < |calls| ==> !Q.Older(calls[j].id, calls[i].id)
    ensures IsClean(q.log, calls) ==> q.quarantined <= buried0
  {
    forall i, j | 0 <= i < j < |calls| ensures !Q.Older(calls[j].id, calls[i].id) {
      IdsNeverDecrease(calls, q.log, i, j);
    }
    if IsClean(q.log, calls) { CleanQuarantinesNothing(q, calls, buried0); }
  }

  /**
    When everything goes well for long enough, everything that was live is
    delivered and acknowledged: six awaits for each entry, and one to begin with.
   */
  method Drain(queue: DiscordInboundQueue, script: seq<Tick>, pollMs: nat, maxAttempts: nat, maxBackoffMs: nat,
               restartMaxBackoffMs: nat)
    requires Q.WellFormed(queue.View()) && Q.DedupeSound(queue.View()) && Q.IsSuffix(queue.View())
    requires IsCalm(script) && RealForwarder(script) && 6 * |queue.stream| < |script|
    requires ProducersOnly(script) && forall e :: e in queue.log ==> e.content.Event?
    modifies queue
    ensures forall e :: e in old(queue.stream) ==> e.id in queue.acknowledged && e.id !in Q.Live(queue.View())
    ensures queue.quarantined == old(queue.quarantined) && queue.shed == old(queue.shed)
  {
    hide Sound, Strict, Q.WellFormed, Q.DedupeSound, IsClean, IsCalm, Q.Live;
    ghost var q := queue.View();
    NoCallsYet(q);
    var worker := new DeliveryWorker(queue, script, true, false, true, [], queue.acknowledged, queue.quarantined);
    var _ := worker.RunSupervisedDeliveryLoop(pollMs, maxAttempts, maxBackoffMs, restartMaxBackoffMs);
    AllTogether(queue.View(), worker.calls, q.acknowledged, q.quarantined);
    BehindIsAcknowledged(q, queue.View());
  }

  lemma BehindIsAcknowledged(q: Q.Queue, r: Q.Queue)
    requires Q.WellFormed(q) && Q.WellFormed(r) && Q.IsSuffix(r) && q.log <= r.log && |q.log| <= Q.First(r)
    requires r.quarantined == q.quarantined && r.shed == q.shed
    ensures forall e :: e in q.stream ==> e.id in r.acknowledged && e.id !in Q.Live(r)
  {
    forall e | e in q.stream ensures e.id in r.acknowledged && e.id !in Q.Live(r) {
      assert e.id in Q.Live(q);
      var i :| 0 <= i < |q.log| && q.log[i] == e;
      assert r.log[i] == e && e.id in Q.Ids(r.log);
      NotLiveBehind(r, i);
    }
  }

  lemma NotLiveBehind(q: Q.Queue, i: nat)
    requires Q.Sorted(q.log) && Q.IsSuffix(q) && i < Q.First(q)
    ensures q.log[i].id !in Q.Live(q)
  {
    forall e | e in q.stream ensures e.id != q.log[i].id {
      var k :| 0 <= k < |q.stream| && q.stream[k] == e;
      assert e == q.log[Q.First(q) + k];
    }
  }
}

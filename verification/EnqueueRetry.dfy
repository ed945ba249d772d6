/**
  enqueueDiscordInboundWithRetry over the inbound queue. An attempt may be
  executed by Redis and answered, executed with its answer lost, or not executed;
  other clients of the queue act between the attempts.
 */
module EnqueueRetry {
  import Q = QueueModel
  import opened InboundQueue

  datatype Fate = Answered | AnswerLost | NotExecuted

  /**
    `aborted` is the signal as the attempt begins, `abortedAfter` at the wait that
    follows it, and `others` what other clients do during that wait. `id`, `now`
    and `trim` are Redis's choices.
   */
  datatype Attempt = Attempt(
    aborted: bool, fate: Fate, id: StreamId, now: int, trim: nat, abortedAfter: bool, others: seq<Q.Step>)

  datatype Result = Returned(enqueued: bool) | Threw

  /** A step of another client that adds to the log does so between `lo` and `hi`. */
  predicate StepWithin(step: Q.Step, lo: int, hi: int) {
    (step.Put? || step.PutMalformed?) ==> lo <= step.now < hi
  }

  /** All attempts, and what happens between them, take less than a dedupe lifetime. */
  predicate Within(attempts: seq<Attempt>, lo: int, hi: int) {
    forall k :: 0 <= k < |attempts| ==>
      lo <= attempts[k].now < hi && forall step :: step in attempts[k].others ==> StepWithin(step, lo, hi)
  }

  function Others(attempts: seq<Attempt>): seq<Q.Step> {
    if attempts == [] then [] else Others(attempts[..|attempts| - 1]) + attempts[|attempts| - 1].others
  }

  /** What is logged from position `n` on was logged between `lo` and `hi`, and nothing later. */
  ghost predicate LoggedWithin(q: Q.Queue, n: nat, lo: int, hi: int) {
    && Q.WellFormed(q) && Q.DedupeSound(q) && n <= |q.log| && q.clock < hi
    && forall i :: n <= i < |q.log| ==> lo <= q.log[i].at
  }

  /** The event has been logged at or after position `n`. */
  ghost predicate LoggedSince(q: Q.Queue, n: nat, k: Q.Key) {
    exists i :: n <= i < |q.log| && Q.HasKey(q.log[i], k)
  }

  lemma {:induction false} OthersKeep(q: Q.Queue, steps: seq<Q.Step>, n: nat, lo: int, hi: int)
    requires LoggedWithin(q, n, lo, hi) && forall step :: step in steps ==> StepWithin(step, lo, hi)
    ensures var r := Q.ApplyAll(q, steps);
            LoggedWithin(r, n, lo, hi) && q.log <= r.log && |r.log| <= |q.log| + |steps|
    decreases |steps|
  {
    if steps != [] {
      assert steps[0] in steps;
      StepKeeps(q, steps[0], n, lo, hi);
      OthersKeep(Q.Apply(q, steps[0]), steps[1..], n, lo, hi);
    }
  }

  lemma StepKeeps(q: Q.Queue, step: Q.Step, n: nat, lo: int, hi: int)
    requires LoggedWithin(q, n, lo, hi) && StepWithin(step, lo, hi)
    ensures var r := Q.Apply(q, step);
            LoggedWithin(r, n, lo, hi) && q.log <= r.log && |r.log| <= |q.log| + 1
  {
    hide Q.WellFormed, Q.DedupeSound, Q.FreshId;
    Q.ApplyKeeps(q, step);
  }

  lemma {:induction false} ApplyAllAppends(q: Q.Queue, a: seq<Q.Step>, b: seq<Q.Step>)
    ensures Q.ApplyAll(q, a + b) == Q.ApplyAll(Q.ApplyAll(q, a), b)
    decreases |a|
  {
    if a == [] {
      assert a + b == b;
    } else {
      assert (a + b)[0] == a[0] && (a + b)[1..] == a[1..] + b;
      ApplyAllAppends(Q.Apply(q, a[0]), a[1..], b);
    }
  }

  /** Within less than a dedupe lifetime no event is logged twice. */
  lemma LoggedOnceWithin(q: Q.Queue, n: nat, lo: int, hi: int, i: nat, j: nat, k: Q.Key)
    requires LoggedWithin(q, n, lo, hi) && hi <= lo + Q.DEDUPE_TTL && n <= i < j < |q.log|
    ensures !(Q.HasKey(q.log[i], k) && Q.HasKey(q.log[j], k))
  {
  }

  /** An id that Redis can give: the one proposed, or the next after the last. */
  function PossibleId(log: seq<Entry>, id: StreamId): StreamId {
    if log == [] || Q.Older(log[|log| - 1].id, id) then id
    else Q.StreamId(log[|log| - 1].id.ms, log[|log| - 1].id.count + 1)
  }

  /** What an executed attempt does; if it adds the event, that is the first time since position `n`. */
  lemma AttemptKeeps(
    q: Q.Queue, envelope: Q.Envelope, id: StreamId, now: int, trim: nat, n: nat, lo: int, hi: int)
    requires LoggedWithin(q, n, lo, hi) && hi <= lo + Q.DEDUPE_TTL
    requires Q.FreshId(q, id) && trim <= |q.stream| && q.clock <= now && lo <= now < hi
    ensures var (r, added) := Q.Enqueue(q, envelope, id, now, trim);
            && LoggedWithin(r, n, lo, hi) && q.log <= r.log && Q.Logged(r.log, Q.KeyOf(envelope))
            && |r.log| == |q.log| + (if added then 1 else 0)
            && (added ==> LoggedSince(r, n, Q.KeyOf(envelope)) && !LoggedSince(q, n, Q.KeyOf(envelope)))
  {
    var k := Q.KeyOf(envelope);
    var (r, added) := Q.Enqueue(q, envelope, id, now, trim);
    Q.EnqueueKeeps(q, envelope, id, now, trim);
    hide Q.WellFormed, Q.DedupeSound, Q.FreshId;
    if added {
      assert Q.HasKey(r.log[|q.log|], k);
      forall i | n <= i < |q.log| ensures !Q.HasKey(q.log[i], k) {
        LoggedOnceWithin(r, n, lo, hi, i, |q.log|, k);
      }
    }
  }

  lemma LoggedSinceGrows(q: Q.Queue, r: Q.Queue, n: nat, k: Q.Key)
    requires q.log <= r.log
    ensures LoggedSince(q, n, k) ==> LoggedSince(r, n, k)
    ensures Q.Logged(q.log, k) ==> Q.Logged(r.log, k)
  {
    if Q.Logged(q.log, k) { Q.LoggedGrows(q.log, r.log, k); }
    if i :| n <= i < |q.log| && Q.HasKey(q.log[i], k) {
      assert Q.HasKey(r.log[i], k);
    }
  }

  /** An attempt that Redis executes, answered or not. */
  method Execute(queue: DiscordInboundQueue, envelope: Q.Envelope, a: Attempt,
                 ghost n: nat, ghost lo: int, ghost hi: int)
    returns (enqueued: bool)
    requires LoggedWithin(queue.View(), n, lo, hi) && hi <= lo + Q.DEDUPE_TTL && lo <= a.now < hi
    modifies queue
    ensures LoggedWithin(queue.View(), n, lo, hi) && old(queue.log) <= queue.log
    ensures Q.Logged(queue.log, Q.KeyOf(envelope))
    ensures |queue.log| == |old(queue.log)| + (if enqueued then 1 else 0)
    ensures enqueued || LoggedSince(old(queue.View()), n, Q.KeyOf(envelope)) ==>
              LoggedSince(queue.View(), n, Q.KeyOf(envelope))
    ensures enqueued ==> !LoggedSince(old(queue.View()), n, Q.KeyOf(envelope))
  {
    hide LoggedWithin, LoggedSince, Q.Enqueue, Q.Logged, Q.KeyOf;
    var id := PossibleId(queue.log, a.id);
    var now := if queue.clock <= a.now then a.now else queue.clock;
    var trim := if a.trim <= |queue.stream| then a.trim else 0;
    ghost var q := queue.View();
    ClockIsWithin(q, n, lo, hi);
    AttemptKeeps(q, envelope, id, now, trim, n, lo, hi);
    enqueued := queue.Enqueue(envelope, id, now, trim);
    LoggedSinceGrows(q, queue.View(), n, Q.KeyOf(envelope));
  }

  lemma ClockIsWithin(q: Q.Queue, n: nat, lo: int, hi: int)
    requires LoggedWithin(q, n, lo, hi)
    ensures q.clock < hi
  {
  }

  /** The wait between two attempts, during which other clients act. */
  method Wait(queue: DiscordInboundQueue, others: seq<Q.Step>,
              ghost k: Q.Key, ghost n: nat, ghost lo: int, ghost hi: int)
    requires LoggedWithin(queue.View(), n, lo, hi) && forall step :: step in others ==> StepWithin(step, lo, hi)
    modifies queue
    ensures queue.View() == Q.ApplyAll(old(queue.View()), others)
    ensures LoggedWithin(queue.View(), n, lo, hi) && old(queue.log) <= queue.log
    ensures |queue.log| <= |old(queue.log)| + |others|
    ensures LoggedSince(old(queue.View()), n, k) ==> LoggedSince(queue.View(), n, k)
    ensures Q.Logged(old(queue.log), k) ==> Q.Logged(queue.log, k)
  {
    hide LoggedWithin, LoggedSince, Q.ApplyAll, Q.Logged, StepWithin;
    ghost var q := queue.View();
    OthersKeep(q, others, n, lo, hi);
    queue.Others(others);
    LoggedSinceGrows(q, queue.View(), n, k);
  }

  /** The attempt was made, went unanswered, and was followed by a wait that passed. */
  predicate GoesOn(a: Attempt) {
    !a.aborted && !a.fate.Answered? && !a.abortedAfter
  }

  /**
    How the retry ends with its last attempt: it returns exactly when that one is
    made and answered, and otherwise the signal was aborted, or it was the last.
   */
  predicate EndsAs(a: Attempt, isLast: bool, r: Result) {
    && (r.Returned? <==> !a.aborted && a.fate.Answered?)
    && (r.Threw? ==> a.aborted || (!a.fate.Answered? && (isLast || a.abortedAfter)))
  }

  /**
    At most `maxAttempts` tries, with a wait between any two; `waits` of them
    pass. An answer means that the event is in the log. However many attempts
    Redis executes without answering, and whatever other clients do during the
    waits, even for the same event, the log gains the event at most once, and at
    most one entry besides theirs.
   */
  method EnqueueWithRetry(queue: DiscordInboundQueue, envelope: Q.Envelope, attempts: seq<Attempt>, maxAttempts: nat)
    returns (r: Result, executed: bool, waits: nat)
    requires 0 < maxAttempts <= |attempts|
    requires Q.WellFormed(queue.View()) && Q.DedupeSound(queue.View()) && queue.clock <= attempts[0].now
    requires Within(attempts, attempts[0].now, attempts[0].now + Q.DEDUPE_TTL)
    modifies queue
    ensures Q.WellFormed(queue.View()) && Q.DedupeSound(queue.View()) && waits < maxAttempts
    ensures old(queue.log) <= queue.log && |queue.log| <= |old(queue.log)| + 1 + |Others(attempts[..waits])|
    ensures forall i, j :: |old(queue.log)| <= i < j < |queue.log| ==>
              !(Q.HasKey(queue.log[i], Q.KeyOf(envelope)) && Q.HasKey(queue.log[j], Q.KeyOf(envelope)))
    ensures executed ==> Q.Logged(queue.log, Q.KeyOf(envelope))
    ensures r.Returned? ==> executed
    ensures r == Returned(true) ==> LoggedSince(queue.View(), |old(queue.log)|, Q.KeyOf(envelope))
    ensures !executed ==> queue.View() == Q.ApplyAll(old(queue.View()), Others(attempts[..waits]))
    ensures (forall k :: 0 <= k < waits ==> GoesOn(attempts[k])) && EndsAs(attempts[waits], waits + 1 == maxAttempts, r)
    ensures executed <==>
              || (!attempts[waits].aborted && !attempts[waits].fate.NotExecuted?)
              || exists k :: 0 <= k < waits && !attempts[k].fate.NotExecuted?
  {
    hide Q.WellFormed, Q.DedupeSound, LoggedWithin, Within, StepWithin, Others, Q.FreshId, Q.Logged;
    hide LoggedSince, Q.HasKey, Q.KeyOf, Q.Enqueue, Q.ApplyAll, PossibleId, Q.Older;
    var k := Q.KeyOf(envelope);
    ghost var start, n := queue.View(), |queue.log|;
    ghost var lo, hi := attempts[0].now, attempts[0].now + Q.DEDUPE_TTL;
    ghost var added := false;
    executed, waits, r := false, 0, Threw;
    StartsWithin(start, attempts, lo, hi);
    while true
      invariant 0 <= waits < maxAttempts && r.Threw?
      invariant forall k :: 0 <= k < waits ==> GoesOn(attempts[k])
      invariant executed <==> exists k :: 0 <= k < waits && !attempts[k].fate.NotExecuted?
      invariant LoggedWithin(queue.View(), n, lo, hi) && old(queue.log) <= queue.log
      invariant |queue.log| <= n + (if added then 1 else 0) + |Others(attempts[..waits])|
      invariant !executed ==> queue.View() == Q.ApplyAll(start, Others(attempts[..waits]))
      invariant added ==> executed && LoggedSince(queue.View(), n, k)
      invariant executed ==> Q.Logged(queue.log, k)
      decreases maxAttempts - waits
    {
      var a := attempts[waits];
      if a.aborted { break; }
      AttemptIsWithin(attempts, waits, lo, hi);
      if !a.fate.NotExecuted? {
        var enqueued := Execute(queue, envelope, a, n, lo, hi);
        executed, added := true, added || enqueued;
        if a.fate.Answered? {
          r := Returned(enqueued);
          break;
        }
      }
      if waits + 1 == maxAttempts || a.abortedAfter { break; }
      Wait(queue, a.others, k, n, lo, hi);
      NextWait(start, attempts, waits);
      waits := waits + 1;
    }
    NeverTwice(queue.View(), n, lo, hi, k);
  }

  lemma StartsWithin(q: Q.Queue, attempts: seq<Attempt>, lo: int, hi: int)
    requires Q.WellFormed(q) && Q.DedupeSound(q)
    requires attempts != [] && q.clock <= attempts[0].now && Within(attempts, lo, hi)
    ensures LoggedWithin(q, |q.log|, lo, hi) && Others(attempts[..0]) == [] && Q.ApplyAll(q, []) == q
  {
  }

  lemma AttemptIsWithin(attempts: seq<Attempt>, k: nat, lo: int, hi: int)
    requires Within(attempts, lo, hi) && k < |attempts|
    ensures lo <= attempts[k].now < hi
    ensures forall step :: step in attempts[k].others ==> StepWithin(step, lo, hi)
  {
  }

  lemma NextWait(start: Q.Queue, attempts: seq<Attempt>, k: nat)
    requires k < |attempts|
    ensures Others(attempts[..k + 1]) == Others(attempts[..k]) + attempts[k].others
    ensures Q.ApplyAll(start, Others(attempts[..k + 1]))
         == Q.ApplyAll(Q.ApplyAll(start, Others(attempts[..k])), attempts[k].others)
  {
    assert attempts[..k + 1][..k] == attempts[..k];
    ApplyAllAppends(start, Others(attempts[..k]), attempts[k].others);
  }

  lemma NeverTwice(q: Q.Queue, n: nat, lo: int, hi: int, k: Q.Key)
    requires LoggedWithin(q, n, lo, hi) && hi <= lo + Q.DEDUPE_TTL
    ensures Q.WellFormed(q) && Q.DedupeSound(q)
    ensures forall i, j :: n <= i < j < |q.log| ==> !(Q.HasKey(q.log[i], k) && Q.HasKey(q.log[j], k))
  {
    forall i, j | n <= i < j < |q.log| ensures !(Q.HasKey(q.log[i], k) && Q.HasKey(q.log[j], k)) {
      LoggedOnceWithin(q, n, lo, hi, i, j, k);
    }
  }
}

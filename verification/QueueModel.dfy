/**
  The durable inbound queue: a Redis stream, a hash of attempt counters, the
  dedupe keys and the dead-letter stream. Each Lua script is one atomic step.
  The value `Queue` is the Redis state together with the history of what was
  ever added and where it went. InboundQueue.dfy keeps that state in place.
 */
module QueueModel {
  import opened Prelude

  const DEDUPE_TTL: int := 24 * 60 * 60 * 1000
  const PEEK_LIMIT := 25

  // --------------------------------------------------------------------
  // Stream ids

  /** A Redis stream id, "<milliseconds>-<sequence>". */
  datatype StreamId = StreamId(ms: nat, count: nat)

  /** Redis's own order on ids, the one in which a stream lists its entries. */
  predicate Older(a: StreamId, b: StreamId) {
    a.ms < b.ms || (a.ms == b.ms && a.count < b.count)
  }

  /** The source's comparison: `leftMs - rightMs || leftSeq - rightSeq`. */
  function CompareStreamIds(left: StreamId, right: StreamId): (sign: int)
    ensures sign < 0 <==> Older(left, right)
    ensures sign == 0 <==> left == right
  {
    if left.ms - right.ms != 0 then left.ms - right.ms else left.count - right.count
  }

  // --------------------------------------------------------------------
  // Entries

  datatype EventType = MessageCreate | InteractionCreate | MessageReactionAdd

  datatype Envelope = Envelope(eventId: string, eventType: EventType, payload: string)

  /** The two parts that vary in a dedupe key. */
  datatype Key = Key(eventType: EventType, eventId: string)

  /** What the fields of a stream entry hold. */
  datatype Content = NoEnvelope | NotJson(text: string) | Event(envelope: Envelope)

  datatype Entry = Entry(id: StreamId, content: Content, at: int)

  function KeyOf(envelope: Envelope): Key {
    Key(envelope.eventType, envelope.eventId)
  }

  predicate HasKey(e: Entry, k: Key) {
    e.content.Event? && KeyOf(e.content.envelope) == k
  }

  function Ids(entries: seq<Entry>): set<StreamId> {
    set e | e in entries :: e.id
  }

  ghost predicate Sorted(entries: seq<Entry>) {
    forall i, j :: 0 <= i < j < |entries| ==> Older(entries[i].id, entries[j].id)
  }

  /** XDEL: the entries without the one that has this id. */
  function Remove(entries: seq<Entry>, id: StreamId): (rest: seq<Entry>)
    ensures forall e :: e in rest ==> e in entries
  {
    if entries == [] then [] else
    assert entries[0] in entries && forall e :: e in entries[1..] ==> e in entries;
    if entries[0].id == id then entries[1..] else [entries[0]] + Remove(entries[1..], id)
  }

  lemma {:induction false} RemoveFromSorted(entries: seq<Entry>, id: StreamId)
    requires Sorted(entries)
    ensures Sorted(Remove(entries, id))
    ensures Ids(Remove(entries, id)) == Ids(entries) - {id}
  {
    if entries != [] {
      var first, rest := entries[0], entries[1..];
      assert Sorted(rest);
      RemoveFromSorted(rest, id);
      IdsSplit(entries);
      forall e | e in rest ensures Older(first.id, e.id) {
        var j :| 0 <= j < |rest| && rest[j] == e;
        assert rest[j] == entries[j + 1];
      }
      if first.id == id {
        assert id !in Ids(rest);
      } else {
        var tail := Remove(rest, id);
        var r := [first] + tail;
        IdsSplit(r);
        forall i, j | 0 <= i < j < |r| ensures Older(r[i].id, r[j].id) {
          if i == 0 {
            assert r[j] in tail;
          } else {
            assert r[i] == tail[i - 1] && r[j] == tail[j - 1];
          }
        }
      }
    }
  }

  lemma IdsSplit(entries: seq<Entry>)
    requires entries != []
    ensures Ids(entries) == {entries[0].id} + Ids(entries[1..])
  {
  }

  /** Where XDEL finds the entry. */
  lemma {:induction false} RemoveAt(entries: seq<Entry>, i: nat, id: StreamId)
    requires i < |entries| && id !in Ids(entries[..i])
    ensures entries[i].id == id ==> Remove(entries, id) == entries[..i] + entries[i + 1..] && id in Ids(entries)
    ensures entries[i].id != id ==> id !in Ids(entries[..i + 1])
  {
    assert entries[..i + 1] == entries[..i] + [entries[i]];
    IdsConcat(entries[..i], [entries[i]]);
    if i > 0 {
      assert entries[0] in entries[..i];
      assert entries[..i][1..] == entries[1..][..i - 1];
      IdsSplit(entries[..i]);
      RemoveAt(entries[1..], i - 1, id);
    }
  }

  lemma RemoveAbsent(entries: seq<Entry>, id: StreamId)
    requires id !in Ids(entries)
    ensures Remove(entries, id) == entries
  {
    RemoveMissing(entries, id);
  }

  lemma NoIds()
    ensures Ids([]) == {}
  {
  }

  lemma IdsConcat(a: seq<Entry>, b: seq<Entry>)
    ensures Ids(a + b) == Ids(a) + Ids(b)
  {
  }

  // --------------------------------------------------------------------
  // The queue and its steps

  datatype DeadLetter = DeadLetter(source: StreamId, attempts: nat)

  datatype Queue = Queue(
    stream: seq<Entry>,
    attempts: map<StreamId, nat>,
    dedupe: map<Key, int>,
    dead: seq<DeadLetter>,
    // history
    log: seq<Entry>,
    acknowledged: set<StreamId>,
    quarantined: set<StreamId>,
    shed: set<StreamId>,
    clock: int)

  const EMPTY: Queue := Queue([], map[], map[], [], [], {}, {}, {}, 0)

  function Live(q: Queue): set<StreamId> {
    Ids(q.stream)
  }

  /** XADD with an approximate MAXLEN: Redis gives the id and drops `trim` oldest entries. */
  function Add(q: Queue, id: StreamId, content: Content, now: int, trim: nat): Queue
    requires trim <= |q.stream|
  {
    var e := Entry(id, content, now);
    q.(stream := q.stream[trim..] + [e],
       log := q.log + [e],
       shed := q.shed + Ids(q.stream[..trim]),
       clock := now)
  }

  predicate Deduped(q: Queue, k: Key, now: int) {
    k in q.dedupe && now < q.dedupe[k]
  }

  function Enqueue(q: Queue, envelope: Envelope, id: StreamId, now: int, trim: nat): (Queue, bool)
    requires trim <= |q.stream|
  {
    var k := KeyOf(envelope);
    if Deduped(q, k, now) then (q.(clock := now), false) else
    (Add(q, id, Event(envelope), now, trim).(dedupe := q.dedupe[k := now + DEDUPE_TTL]), true)
  }

  function Acknowledge(q: Queue, id: StreamId): Queue {
    q.(stream := Remove(q.stream, id),
       attempts := q.attempts - {id},
       acknowledged := if id in Live(q) then q.acknowledged + {id} else q.acknowledged)
  }

  function Quarantine(q: Queue, id: StreamId, attempts: nat, trim: nat): (Queue, bool)
    requires trim <= |q.dead|
  {
    if id !in Live(q) then (q.(attempts := q.attempts - {id}), false) else
    (q.(stream := Remove(q.stream, id),
        attempts := q.attempts - {id},
        dead := q.dead[trim..] + [DeadLetter(id, attempts)],
        quarantined := q.quarantined + {id}), true)
  }

  function Attempts(q: Queue, id: StreamId): nat {
    if id in q.attempts then q.attempts[id] else 0
  }

  function RecordAttempt(q: Queue, id: StreamId): (Queue, nat) {
    var n := Attempts(q, id) + 1;
    (q.(attempts := q.attempts[id := n]), n)
  }

  /** XRANGE from the oldest entry. */
  function Peek(q: Queue): seq<Entry> {
    if |q.stream| <= PEEK_LIMIT then q.stream else q.stream[..PEEK_LIMIT]
  }

  // --------------------------------------------------------------------
  // Conservation and dedupe

  ghost predicate WellFormed(q: Queue) {
    && Sorted(q.log)
    && Sorted(q.stream)
    && (forall e :: e in q.stream ==> e in q.log)
    && Ids(q.log) == Live(q) + q.acknowledged + q.quarantined + q.shed
    && Live(q) !! q.acknowledged !! q.quarantined !! q.shed
    && q.attempts.Keys <= Ids(q.log)
    && (forall i :: 0 <= i < |q.log| ==> q.log[i].at <= q.clock)
    && (forall i, j :: 0 <= i < j < |q.log| ==> q.log[i].at <= q.log[j].at)
  }

  /** A dedupe key stands for a logged event. */
  ghost predicate KeysLogged(log: seq<Entry>, dedupe: map<Key, int>) {
    forall k :: k in dedupe ==> Logged(log, k)
  }

  ghost predicate Logged(log: seq<Entry>, k: Key) {
    exists e :: e in log && HasKey(e, k)
  }

  /** The key of a logged event stays for its lifetime. */
  ghost predicate KeysOutlive(log: seq<Entry>, dedupe: map<Key, int>) {
    forall e :: e in log && e.content.Event? ==>
      var k := KeyOf(e.content.envelope);
      k in dedupe && e.at + DEDUPE_TTL <= dedupe[k]
  }

  /** Two log entries for one event are at least the dedupe lifetime apart. */
  ghost predicate Spaced(log: seq<Entry>) {
    forall i, j, k :: 0 <= i < j < |log| && HasKey(log[i], k) && HasKey(log[j], k) ==>
      log[i].at + DEDUPE_TTL <= log[j].at
  }

  ghost predicate DedupeSound(q: Queue) {
    KeysLogged(q.log, q.dedupe) && KeysOutlive(q.log, q.dedupe) && Spaced(q.log)
  }

  /** Redis hands out ids in increasing order. */
  predicate FreshId(q: Queue, id: StreamId) {
    q.log == [] || Older(q.log[|q.log| - 1].id, id)
  }

  lemma FreshIdIsNew(q: Queue, id: StreamId)
    requires WellFormed(q) && FreshId(q, id)
    ensures forall e :: e in q.log ==> Older(e.id, id)
    ensures id !in Ids(q.log)
  {
  }

  lemma AddKeepsWellFormed(q: Queue, id: StreamId, content: Content, now: int, trim: nat)
    requires WellFormed(q) && FreshId(q, id) && q.clock <= now && trim <= |q.stream|
    ensures WellFormed(Add(q, id, content, now, trim))
  {
    FreshIdIsNew(q, id);
    var e := Entry(id, content, now);
    var kept, dropped := q.stream[trim..], q.stream[..trim];
    assert q.stream == dropped + kept;
    IdsConcat(dropped, kept);
    IdsConcat(kept, [e]);
    IdsConcat(q.log, [e]);
    assert Ids([e]) == {id};
    PartsDisjoint(q.stream, trim);
    var r := Add(q, id, content, now, trim);
    assert Sorted(r.log);
    assert Sorted(r.stream) by {
      forall i, j | 0 <= i < j < |r.stream| ensures Older(r.stream[i].id, r.stream[j].id) {
        assert r.stream[i] == q.stream[trim + i] && r.stream[i] in q.stream;
      }
    }
  }

  lemma PartsDisjoint(entries: seq<Entry>, n: nat)
    requires Sorted(entries) && n <= |entries|
    ensures Ids(entries[..n]) !! Ids(entries[n..])
  {
  }

  /** A longer log keeps its keys logged. */
  lemma LoggedGrows(log: seq<Entry>, more: seq<Entry>, k: Key)
    requires log <= more && Logged(log, k)
    ensures Logged(more, k)
  {
  }

  /** The new entry is the newest of its event, and its key had lapsed. */
  lemma EnqueueKeepsDedupe(q: Queue, envelope: Envelope, now: int, r: Queue, e: Entry)
    requires DedupeSound(q) && !Deduped(q, KeyOf(envelope), now)
    requires e.content == Event(envelope) && e.at == now
    requires r.log == q.log + [e] && r.dedupe == q.dedupe[KeyOf(envelope) := now + DEDUPE_TTL]
    ensures DedupeSound(r) && Logged(r.log, KeyOf(envelope))
  {
    var k := KeyOf(envelope);
    assert e in r.log && HasKey(e, k);
    forall x | x in r.dedupe ensures Logged(r.log, x) {
      if x != k { LoggedGrows(q.log, r.log, x); }
    }
    forall i | 0 <= i < |q.log| && HasKey(q.log[i], k) ensures q.log[i].at + DEDUPE_TTL <= e.at {
      assert q.log[i] in q.log;
    }
    forall f | f in r.log && f.content.Event?
      ensures var x := KeyOf(f.content.envelope); x in r.dedupe && f.at + DEDUPE_TTL <= r.dedupe[x]
    {
      assert f in q.log || f == e;
    }
  }

  lemma EnqueueKeeps(q: Queue, envelope: Envelope, id: StreamId, now: int, trim: nat)
    requires WellFormed(q) && DedupeSound(q) && FreshId(q, id) && q.clock <= now && trim <= |q.stream|
    ensures var r := Enqueue(q, envelope, id, now, trim).0;
            WellFormed(r) && DedupeSound(r) && Logged(r.log, KeyOf(envelope)) && q.log <= r.log
  {
    var k := KeyOf(envelope);
    var (r, added) := Enqueue(q, envelope, id, now, trim);
    if added {
      AddKeepsWellFormed(q, id, Event(envelope), now, trim);
      EnqueueKeepsDedupe(q, envelope, now, r, Entry(id, Event(envelope), now));
    }
  }

  lemma MalformedKeeps(q: Queue, content: Content, id: StreamId, now: int, trim: nat)
    requires WellFormed(q) && DedupeSound(q) && FreshId(q, id) && q.clock <= now && trim <= |q.stream|
    requires !content.Event?
    ensures var r := Add(q, id, content, now, trim); WellFormed(r) && DedupeSound(r)
  {
    hide WellFormed, FreshId, Logged;
    AddKeepsWellFormed(q, id, content, now, trim);
    var r := Add(q, id, content, now, trim);
    forall x | x in r.dedupe ensures Logged(r.log, x) {
      LoggedGrows(q.log, r.log, x);
    }
    forall i, j, x | 0 <= i < j < |r.log| && HasKey(r.log[i], x) && HasKey(r.log[j], x)
      ensures r.log[i].at + DEDUPE_TTL <= r.log[j].at
    {
      assert r.log[i] == q.log[i] && r.log[j] == q.log[j];
    }
  }

  lemma RemovalKeeps(q: Queue, id: StreamId, attempts: nat, trim: nat)
    requires WellFormed(q) && trim <= |q.dead|
    ensures WellFormed(Acknowledge(q, id))
    ensures WellFormed(Quarantine(q, id, attempts, trim).0)
    ensures DedupeSound(q) ==> DedupeSound(Acknowledge(q, id))
    ensures DedupeSound(q) ==> DedupeSound(Quarantine(q, id, attempts, trim).0)
    ensures Acknowledge(q, id).log == q.log && Live(Acknowledge(q, id)) == Live(q) - {id}
    ensures Live(Quarantine(q, id, attempts, trim).0) == Live(q) - {id}
  {
    var s := Remove(q.stream, id);
    RemoveFromSorted(q.stream, id);
    assert Ids(s) == Live(q) - {id};
    if id in Live(q) {
      assert Ids(q.log) == Ids(s) + (q.acknowledged + {id}) + q.quarantined + q.shed;
    }
  }

  /** Any step of any client of the queue; a producer other than the gateway writes malformed entries at most. */
  datatype Step =
    | Put(envelope: Envelope, id: StreamId, now: int, trim: nat)
    | PutMalformed(content: Content, id: StreamId, now: int, trim: nat)
    | Attempt(attempted: StreamId)
    | Ack(acked: StreamId)
    | Bury(buried: StreamId, attempts: nat, deadTrim: nat)
    | Forget(ids: set<StreamId>)

  predicate Enabled(q: Queue, step: Step) {
    match step
    case Put(_, id, now, trim) => FreshId(q, id) && q.clock <= now && trim <= |q.stream|
    case PutMalformed(content, id, now, trim) =>
      !content.Event? && FreshId(q, id) && q.clock <= now && trim <= |q.stream|
    case Attempt(id) => id in Ids(q.log)
    case Ack(_) => true
    case Forget(_) => true
    case Bury(_, _, trim) => trim <= |q.dead|
  }

  /** A step that Redis or the caller would not take leaves the queue alone. */
  function Apply(q: Queue, step: Step): Queue {
    if !Enabled(q, step) then q else
    match step
    case Put(envelope, id, now, trim) => Enqueue(q, envelope, id, now, trim).0
    case PutMalformed(content, id, now, trim) => Add(q, id, content, now, trim)
    case Attempt(id) => RecordAttempt(q, id).0
    case Ack(id) => Acknowledge(q, id)
    case Forget(ids) => q.(attempts := q.attempts - ids)
    case Bury(id, attempts, trim) => Quarantine(q, id, attempts, trim).0
  }

  function ApplyAll(q: Queue, steps: seq<Step>): Queue
    decreases |steps|
  {
    if steps == [] then q else ApplyAll(Apply(q, steps[0]), steps[1..])
  }

  lemma ApplyKeeps(q: Queue, step: Step)
    requires WellFormed(q) && DedupeSound(q)
    ensures WellFormed(Apply(q, step)) && DedupeSound(Apply(q, step))
    ensures q.log <= Apply(q, step).log
  {
    if Enabled(q, step) {
      match step
      case Put(envelope, id, now, trim) => EnqueueKeeps(q, envelope, id, now, trim);
      case PutMalformed(content, id, now, trim) => MalformedKeeps(q, content, id, now, trim);
      case Attempt(id) =>
      case Forget(ids) =>
      case Ack(id) => RemovalKeeps(q, id, 0, 0);
      case Bury(id, attempts, trim) => RemovalKeeps(q, id, attempts, trim);
    }
  }

  /**
    Conservation over every history: each entry ever added is live,
    acknowledged, quarantined or shed, and exactly one of these; and no event is
    logged twice within its dedupe lifetime.
   */
  lemma {:induction false} Conservation(q: Queue, steps: seq<Step>)
    requires WellFormed(q) && DedupeSound(q)
    ensures var r := ApplyAll(q, steps);
            && WellFormed(r) && DedupeSound(r) && q.log <= r.log
            && (forall e :: e in r.log ==>
                  (if e.id in Live(r) then 1 else 0) + (if e.id in r.acknowledged then 1 else 0)
                  + (if e.id in r.quarantined then 1 else 0) + (if e.id in r.shed then 1 else 0) == 1)
    decreases |steps|
  {
    if steps == [] {
      forall e | e in q.log ensures e.id in Ids(q.log) {}
    } else {
      ApplyKeeps(q, steps[0]);
      Conservation(Apply(q, steps[0]), steps[1..]);
    }
  }

  lemma EmptyIsSound()
    ensures WellFormed(EMPTY) && DedupeSound(EMPTY) && IsSuffix(EMPTY)
  {
  }

  // --------------------------------------------------------------------
  // What single steps do

  /** An event is added exactly when its key has not been set, or has lapsed; it is then the newest live entry. */
  lemma EnqueueAddsIff(q: Queue, envelope: Envelope, id: StreamId, now: int, trim: nat)
    requires WellFormed(q) && DedupeSound(q) && FreshId(q, id) && q.clock <= now && trim <= |q.stream|
    ensures var (r, added) := Enqueue(q, envelope, id, now, trim);
            && (added ==> r.log == q.log + [Entry(id, Event(envelope), now)])
            && (added ==> r.stream != [] && r.stream[|r.stream| - 1] == Entry(id, Event(envelope), now))
            && (!added ==> r.log == q.log && r.stream == q.stream)
            && (forall e :: e in q.log && HasKey(e, KeyOf(envelope)) && now < e.at + DEDUPE_TTL ==> !added)
            && (KeyOf(envelope) !in q.dedupe ==> added)
  {
  }

  /** A queue that is not empty shows its oldest entry, and as many more as it has, up to 25. */
  lemma PeekShows(q: Queue)
    ensures q.stream != [] ==> Peek(q) != [] && Peek(q)[0] == q.stream[0]
    ensures Peek(q) <= q.stream && |Peek(q)| == Min(|q.stream|, 25)
  {
  }

  /** A live entry that is acknowledged counts as acknowledged, is live no more, and has no counter. */
  lemma AcknowledgeMoves(q: Queue, id: StreamId)
    requires WellFormed(q) && id in Live(q)
    ensures var r := Acknowledge(q, id);
            && id in r.acknowledged && id !in Live(r) && id !in r.attempts
            && (forall x :: x != id ==> (x in Live(r) <==> x in Live(q)))
            && r.quarantined == q.quarantined && r.shed == q.shed && r.dead == q.dead
  {
    hide WellFormed, Remove;
    RemovedIsNotLive(q, id);
  }

  /** One that is quarantined is the newest dead letter, with its attempts. */
  lemma QuarantineMoves(q: Queue, id: StreamId, attempts: nat, trim: nat)
    requires WellFormed(q) && id in Live(q) && trim <= |q.dead|
    ensures var (r, buried) := Quarantine(q, id, attempts, trim);
            && buried && id in r.quarantined && id !in Live(r) && id !in r.attempts
            && r.dead != [] && r.dead[|r.dead| - 1] == DeadLetter(id, attempts)
            && (forall x :: x != id ==> (x in Live(r) <==> x in Live(q)))
            && r.acknowledged == q.acknowledged && r.shed == q.shed
  {
    hide WellFormed, Remove;
    RemovedIsNotLive(q, id);
  }

  lemma RemovedIsNotLive(q: Queue, id: StreamId)
    requires WellFormed(q)
    ensures Ids(Remove(q.stream, id)) == Live(q) - {id}
  {
    RemoveFromSorted(q.stream, id);
  }

  /** An attempt is the number of attempts recorded, counted from one; others keep theirs. */
  lemma AttemptsCount(q: Queue, id: StreamId, x: StreamId)
    ensures var (r, n) := RecordAttempt(q, id);
            && n == Attempts(q, id) + 1 && Attempts(r, id) == n
            && (x != id ==> Attempts(r, x) == Attempts(q, x))
            && (id !in q.attempts ==> n == 1)
  {
  }

  // --------------------------------------------------------------------
  // The live stream as a suffix of the log

  ghost predicate IsSuffix(q: Queue) {
    |q.stream| <= |q.log| && q.stream == q.log[First(q)..]
  }

  /** The log position of the oldest live entry. */
  function First(q: Queue): int {
    |q.log| - |q.stream|
  }

  lemma AddKeepsSuffix(q: Queue, id: StreamId, content: Content, now: int, trim: nat)
    requires IsSuffix(q) && trim <= |q.stream|
    ensures var r := Add(q, id, content, now, trim); IsSuffix(r) && First(r) == First(q) + trim
  {
  }

  /** A peek lists logged entries: on a suffix, the stretch of the log from its start. */
  lemma PeekIsOldest(q: Queue)
    requires WellFormed(q)
    ensures forall e :: e in Peek(q) ==> e in q.log
    ensures IsSuffix(q) ==> Peek(q) == q.log[First(q)..First(q) + |Peek(q)|]
  {
  }

  /** Removing an entry no newer than the head leaves a suffix, past that entry. */
  lemma RemoveKeepsSuffix(q: Queue, n: nat)
    requires WellFormed(q) && IsSuffix(q) && n < |q.log| && n <= First(q)
    ensures var s := Remove(q.stream, q.log[n].id);
            s == q.log[Max(First(q), n + 1)..]
    ensures q.log[n].id in Live(q) <==> n == First(q)
  {
    if n < First(q) {
      forall e | e in q.stream ensures e.id != q.log[n].id {
        var j :| 0 <= j < |q.stream| && q.stream[j] == e;
        assert Older(q.log[n].id, q.log[First(q) + j].id);
      }
      RemoveFromSorted(q.stream, q.log[n].id);
      RemoveMissing(q.stream, q.log[n].id);
    } else {
      assert q.stream[0] == q.log[n] && q.stream[0] in q.stream;
    }
  }

  lemma {:induction false} RemoveMissing(entries: seq<Entry>, id: StreamId)
    requires forall e :: e in entries ==> e.id != id
    ensures Remove(entries, id) == entries
  {
    if entries != [] {
      assert entries[0] in entries;
      RemoveMissing(entries[1..], id);
    }
  }

  // --------------------------------------------------------------------
  // Pruning orphaned attempt counters

  /** The tracked ids that a prune takes for orphans, from the oldest live entry it saw. */
  function Orphans(tracked: set<StreamId>, stream: seq<Entry>): set<StreamId> {
    set x | x in tracked && (stream == [] || CompareStreamIds(x, stream[0].id) < 0)
  }

  /** An entry live after some steps was live before them, or was added by them. */
  lemma {:induction false} LiveOrNew(q: Queue, steps: seq<Step>, x: StreamId)
    requires WellFormed(q) && DedupeSound(q) && x in Ids(q.log)
    requires x in Live(ApplyAll(q, steps))
    ensures x in Live(q)
    decreases |steps|
  {
    if steps != [] {
      hide WellFormed, DedupeSound, Apply, Live;
      var r := Apply(q, steps[0]);
      ApplyKeeps(q, steps[0]);
      assert Ids(r.log) >= Ids(q.log);
      LiveOrNew(r, steps[1..], x);
      LiveBefore(q, steps[0], x);
    }
  }

  lemma LiveBefore(q: Queue, step: Step, x: StreamId)
    requires WellFormed(q) && DedupeSound(q) && x in Ids(q.log) && x in Live(Apply(q, step))
    ensures x in Live(q)
  {
    hide WellFormed, DedupeSound, Deduped, FreshId, Remove;
    if Enabled(q, step) {
      match step
      case Put(_, id, _, trim) => {
        FreshIdIsNew(q, id);
        AddedLive(q, Apply(q, step), id, trim, x);
      }
      case PutMalformed(_, id, _, trim) => {
        FreshIdIsNew(q, id);
        AddedLive(q, Apply(q, step), id, trim, x);
      }
      case Ack(id) => RemovalKeeps(q, id, 0, 0);
      case Bury(id, attempts, trim) => RemovalKeeps(q, id, attempts, trim);
      case Attempt(_) =>
      case Forget(_) =>
    }
  }

  lemma AddedLive(q: Queue, r: Queue, id: StreamId, trim: nat, x: StreamId)
    requires trim <= |q.stream| && x in Live(r) && x != id
    requires r.stream == q.stream || exists e: Entry :: e.id == id && r.stream == q.stream[trim..] + [e]
    ensures x in Live(q)
  {
  }

  /**
    A prune reads the tracked ids, then the oldest entry, then deletes. Whatever
    other clients do between the three, it deletes no counter of a live entry.
   */
  lemma PruneSparesLive(q: Queue, between: seq<Step>, after: seq<Step>)
    requires WellFormed(q) && DedupeSound(q)
    ensures var q1 := ApplyAll(q, between);
            var q2 := ApplyAll(q1, after);
            Orphans(q.attempts.Keys, q1.stream) !! Live(q2)
  {
    hide ApplyAll, DedupeSound;
    var q1 := ApplyAll(q, between);
    Conservation(q, between);
    var orphans := Orphans(q.attempts.Keys, q1.stream);
    forall x | x in q.attempts.Keys && x in Live(ApplyAll(q1, after)) ensures x !in orphans {
      var e :| e in q.log && e.id == x;
      assert e in q1.log;
      LiveOrNew(q1, after, x);
      var i :| 0 <= i < |q1.stream| && q1.stream[i].id == x;
      assert i > 0 ==> Older(q1.stream[0].id, q1.stream[i].id);
    }
  }

  /** Uninterrupted, on a stream that is a suffix of the log, it leaves only live ids tracked. */
  lemma PruneLeavesOnlyLive(q: Queue)
    requires WellFormed(q) && IsSuffix(q)
    ensures Apply(q, Forget(Orphans(q.attempts.Keys, q.stream))).attempts.Keys <= Live(q)
  {
  }
}

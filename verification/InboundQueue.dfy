/**
  DiscordInboundQueue over Redis: the stream, hash and keys updated in place.
  Every method equals the step of QueueModel it stands for. `log`,
  `acknowledged`, `quarantined`, `shed` and `clock` record the history.
 */
module InboundQueue {
  import opened Prelude
  import Q = QueueModel

  type StreamId = Q.StreamId
  type Entry = Q.Entry

  class DiscordInboundQueue {
    var stream: seq<Entry>
    var attempts: map<StreamId, nat>
    var dedupe: map<Q.Key, int>
    var dead: seq<Q.DeadLetter>
    var log: seq<Entry>
    var acknowledged: set<StreamId>
    var quarantined: set<StreamId>
    var shed: set<StreamId>
    var clock: int

    constructor ()
      ensures View() == Q.EMPTY && Q.WellFormed(View()) && Q.DedupeSound(View()) && Q.IsSuffix(View())
    {
      stream, attempts, dedupe, dead := [], map[], map[], [];
      log, acknowledged, quarantined, shed, clock := [], {}, {}, {}, 0;
      new;
      Q.EmptyIsSound();
    }

    ghost function View(): Q.Queue
      reads this
    {
      Q.Queue(stream, attempts, dedupe, dead, log, acknowledged, quarantined, shed, clock)
    }

    /** `id`, `now` and `trim` are Redis's choices for the XADD. */
    method Enqueue(envelope: Q.Envelope, id: StreamId, now: int, trim: nat) returns (added: bool)
      requires trim <= |stream|
      modifies this
      ensures (View(), added) == Q.Enqueue(old(View()), envelope, id, now, trim)
    {
      var k := Q.KeyOf(envelope);
      clock := now;
      if k in dedupe && now < dedupe[k] { return false; }
      XAdd(id, Q.Event(envelope), now, trim);
      dedupe := dedupe[k := now + Q.DEDUPE_TTL];
      return true;
    }

    method XAdd(id: StreamId, content: Q.Content, now: int, trim: nat)
      requires trim <= |stream|
      modifies this
      ensures View() == Q.Add(old(View()), id, content, now, trim)
    {
      var e := Q.Entry(id, content, now);
      shed, log, clock := shed + Q.Ids(stream[..trim]), log + [e], now;
      stream := stream[trim..] + [e];
    }

    predicate FreshId(id: StreamId)
      reads this
    {
      log == [] || Q.Older(log[|log| - 1].id, id)
    }

    method XDel(id: StreamId) returns (deleted: bool)
      modifies this`stream
      ensures stream == Q.Remove(old(stream), id)
      ensures deleted == (id in Q.Ids(old(stream)))
      ensures !deleted ==> stream == old(stream)
    {
      hide Q.Remove, Q.Ids;
      Q.NoIds();
      var kept, i := [], 0;
      while i < |stream|
        invariant stream == old(stream) && 0 <= i <= |stream|
        invariant id !in Q.Ids(stream[..i]) && kept == stream[..i]
      {
        Q.RemoveAt(stream, i, id);
        if stream[i].id == id {
          stream := kept + stream[i + 1..];
          return true;
        }
        kept := kept + [stream[i]];
        i := i + 1;
      }
      assert stream[..i] == stream;
      Q.RemoveAbsent(stream, id);
      return false;
    }

    method Acknowledge(id: StreamId)
      modifies this
      ensures View() == Q.Acknowledge(old(View()), id)
    {
      var deleted := XDel(id);
      attempts := attempts - {id};
      acknowledged := if deleted then acknowledged + {id} else acknowledged;
    }

    method RecordAttempt(id: StreamId) returns (n: nat)
      modifies this`attempts
      ensures (View(), n) == Q.RecordAttempt(old(View()), id)
    {
      n := (if id in attempts then attempts[id] else 0) + 1;
      attempts := attempts[id := n];
    }

    method Quarantine(id: StreamId, n: nat, trim: nat) returns (buried: bool)
      requires trim <= |dead|
      modifies this
      ensures (View(), buried) == Q.Quarantine(old(View()), id, n, trim)
    {
      buried := XDel(id);
      attempts := attempts - {id};
      if buried {
        dead := dead[trim..] + [Q.DeadLetter(id, n)];
        quarantined := quarantined + {id};
      }
    }

    method Peek() returns (entries: seq<Entry>)
      ensures entries == Q.Peek(View())
    {
      entries := if |stream| <= Q.PEEK_LIMIT then stream else stream[..Q.PEEK_LIMIT];
    }

    /** One step of another client of the queue, if it is possible now. */
    method Other(step: Q.Step)
      modifies this
      ensures View() == Q.Apply(old(View()), step)
    {
      match step
      case Put(envelope, id, now, trim) =>
        if trim <= |stream| && FreshId(id) && clock <= now { var _ := Enqueue(envelope, id, now, trim); }
      case PutMalformed(content, id, now, trim) =>
        if !content.Event? && trim <= |stream| && FreshId(id) && clock <= now { XAdd(id, content, now, trim); }
      case Attempt(id) =>
        if id in Q.Ids(log) { var _ := RecordAttempt(id); }
      case Ack(id) => Acknowledge(id);
      case Bury(id, n, trim) =>
        if trim <= |dead| { var _ := Quarantine(id, n, trim); }
      case Forget(ids) => attempts := attempts - ids;
    }

    /** The prune as one client runs it, with the steps of others between its awaits. */
    method PruneOrphanedAttempts(between: seq<Q.Step>, after: seq<Q.Step>) returns (pruned: nat)
      requires Q.WellFormed(View()) && Q.DedupeSound(View())
      modifies this
      ensures var q1 := Q.ApplyAll(old(View()), between);
              var q2 := Q.ApplyAll(q1, after);
              if old(attempts) == map[] then View() == old(View()) && pruned == 0
              else View() == Q.Apply(q2, Q.Forget(Q.Orphans(old(attempts).Keys, q1.stream)))
                   && forall x :: x in Q.Live(q2) && x in q2.attempts ==> x in attempts
    {
      var tracked := attempts.Keys;
      if tracked == {} { return 0; }
      Q.PruneSparesLive(View(), between, after);
      Others(between);
      var oldest := if stream == [] then None else Some(stream[0].id);
      var orphaned := set x | x in tracked && (oldest.None? || Q.CompareStreamIds(x, oldest.value) < 0);
      assert orphaned == Q.Orphans(tracked, stream);
      Others(after);
      attempts := attempts - orphaned;
      return |orphaned|;
    }

    method Others(steps: seq<Q.Step>)
      modifies this
      ensures View() == Q.ApplyAll(old(View()), steps)
    {
      var i := 0;
      while i < |steps|
        invariant 0 <= i <= |steps|
        invariant Q.ApplyAll(View(), steps[i..]) == Q.ApplyAll(old(View()), steps)
      {
        assert steps[i..][0] == steps[i] && steps[i..][1..] == steps[i + 1..];
        Other(steps[i]);
        i := i + 1;
      }
    }
  }
}

/**
  DiscordGatewayResumeStore: the maps it keeps, updated in place, each method
  tied to the checkpoint of every shard (Checkpoint.dfy). An await is the
  boundary between two methods, so that a flush is three calls: it begins, each
  of its writes lands, and it ends one way or the other.
 */
module ResumeStore {
  import opened Prelude
  import Checkpoint

  type Session = Checkpoint.Session

  /** The persisted session rows of one token, by shard. */
  class Repository {
    var rows: map<nat, Session>

    constructor ()
      ensures rows == map[]
    {
      rows := map[];
    }

    method Save(shard: nat, session: Session)
      modifies this
      ensures rows == old(rows)[shard := session]
    {
      rows := rows[shard := session];
    }

    method UpdateSequence(shard: nat, sequence: int)
      modifies this
      ensures rows == if shard in old(rows)
                      then old(rows)[shard := old(rows)[shard].(sequence := sequence)] else old(rows)
    {
      if shard in rows {
        rows := rows[shard := rows[shard].(sequence := sequence)];
      }
    }

    method Clear(shard: nat)
      modifies this
      ensures rows == old(rows) - {shard}
    {
      rows := rows - {shard};
    }
  }

  class DiscordGatewayResumeStore {
    const repository: Repository
    var sessions: map<nat, Option<Session>>
    var loadedShards: set<nat>
    var durableSequences: map<nat, int>
    var acknowledgedSequences: map<nat, set<int>>
    var pendingSequences: map<nat, int>
    var activeFlush: Option<map<nat, int>>
    var preserveSessionClears: bool

    constructor (repository: Repository)
      ensures this.repository == repository
      ensures loadedShards == {} && activeFlush.None? && !preserveSessionClears
      ensures forall k :: View(k) == Checkpoint.Shard(None, None, None, None, {})
    {
      this.repository := repository;
      sessions, loadedShards, durableSequences := map[], {}, map[];
      acknowledgedSequences, pendingSequences := map[], map[];
      activeFlush, preserveSessionClears := None, false;
    }

    /** The checkpoint that the maps hold for one shard. */
    ghost function View(k: nat): Checkpoint.Shard
      reads this
    {
      Checkpoint.Shard(
        if k in sessions then sessions[k] else None,
        Get(durableSequences, k),
        Get(pendingSequences, k),
        if activeFlush.Some? then Get(activeFlush.value, k) else None,
        if k in acknowledgedSequences then acknowledgedSequences[k] else {})
    }

    static function Get(m: map<nat, int>, k: nat): Option<int> {
      if k in m then Some(m[k]) else None
    }

    method CommittedSession(k: nat) returns (session: Option<Session>)
      ensures session == Checkpoint.Committed(View(k))
    {
      if k !in sessions || sessions[k].None? { return None; }
      var observed := sessions[k].value;
      var durable, pending := Get(durableSequences, k), Get(pendingSequences, k);
      var committed := match (durable, pending)
        case (None, _) => pending
        case (_, None) => durable
        case (Some(d), Some(p)) => Some(Max(d, p));
      if committed.None? { return None; }
      session := Some(observed.(sequence := Min(observed.sequence, committed.value)));
    }

    /** The first call for a shard loads its row; later ones answer from memory. */
    method Retrieve(k: nat) returns (session: Option<Session>)
      modifies this
      ensures session == Checkpoint.Committed(View(k))
      ensures k in old(loadedShards) ==> View(k) == old(View(k))
      ensures k !in old(loadedShards) && k in repository.rows ==>
                var row := repository.rows[k];
                View(k) == old(View(k)).(session := Some(row), durable := Some(row.sequence))
      ensures k !in old(loadedShards) && k !in repository.rows ==> View(k) == old(View(k)).(session := None)
      ensures forall o :: o != k ==> View(o) == old(View(o))
      ensures loadedShards == old(loadedShards) + {k} && activeFlush == old(activeFlush)
    {
      if k !in loadedShards {
        var persisted := if k in repository.rows then Some(repository.rows[k]) else None;
        loadedShards := loadedShards + {k};
        sessions := sessions[k := persisted];
        if persisted.Some? {
          durableSequences := durableSequences[k := persisted.value.sequence];
        }
      }
      session := CommittedSession(k);
    }

    method Update(k: nat, session: Option<Session>)
      modifies this, repository
      ensures View(k) == Checkpoint.Update(old(View(k)), session)
      ensures forall o :: o != k ==> View(o) == old(View(o))
      ensures loadedShards == old(loadedShards) + {k} && activeFlush == old(activeFlush)
      ensures preserveSessionClears == old(preserveSessionClears)
      ensures repository.rows ==
                if session.None? then
                  if preserveSessionClears then old(repository.rows) else old(repository.rows) - {k}
                else if old(View(k)).session.Some?
                        && Checkpoint.SameIdentity(old(View(k)).session.value, session.value) then
                  old(repository.rows)
                else
                  old(repository.rows)[k := session.value]
    {
      var previous := if k in sessions then sessions[k] else None;
      loadedShards := loadedShards + {k};
      sessions := sessions[k := session];
      if session.None? {
        pendingSequences := pendingSequences - {k};
        durableSequences := durableSequences - {k};
        acknowledgedSequences := acknowledgedSequences - {k};
        if !preserveSessionClears {
          repository.Clear(k);
        }
        return;
      }
      if previous.None?
         || previous.value.id != session.value.id
         || previous.value.resumeUrl != session.value.resumeUrl
         || previous.value.shardCount != session.value.shardCount
      {
        pendingSequences := pendingSequences - {k};
        acknowledgedSequences := acknowledgedSequences - {k};
        repository.Save(k, session.value);
        durableSequences := durableSequences[k := session.value.sequence];
      }
    }

    method AcknowledgeDispatch(k: nat, sequence: Option<int>) returns (ok: bool)
      modifies this
      ensures (View(k), ok) == Checkpoint.Acknowledge(old(View(k)), sequence)
      ensures forall o :: o != k ==> View(o) == old(View(o))
      ensures loadedShards == old(loadedShards) && activeFlush == old(activeFlush)
    {
      if k !in sessions || sessions[k].None? || sequence.None? { return false; }
      var n := Min(sequence.value, sessions[k].value.sequence);
      var durable := if k in durableSequences then durableSequences[k] else -1;
      var pending := if k in pendingSequences then pendingSequences[k] else -1;
      var from := Max(durable, pending);
      if n <= from { return true; }
      var acks := if k in acknowledgedSequences then acknowledgedSequences[k] else {};
      if |acks| >= Checkpoint.MAX_UNCHECKPOINTED && n !in acks { return false; }
      acks := acks + {n};
      ghost var all := acks;
      var top := from;
      while top + 1 in acks
        invariant from <= top <= Checkpoint.Drain(all, from)
        invariant acks == Checkpoint.Above(all, from, top)
        decreases Checkpoint.Drain(all, from) - top
      {
        acks := acks - {top + 1};
        top := top + 1;
      }
      assert top == Checkpoint.Drain(all, from);
      acknowledgedSequences := acknowledgedSequences[k := acks];
      if top != from {
        pendingSequences := pendingSequences[k := top];
      }
      return true;
    }

    method BeginSessionHandoff()
      modifies this`preserveSessionClears
      ensures preserveSessionClears
    {
      preserveSessionClears := true;
    }

    method EndSessionHandoff()
      modifies this`preserveSessionClears
      ensures !preserveSessionClears
    {
      preserveSessionClears := false;
    }

    /** A flush takes all pending sequences, unless one is already in flight. */
    method BeginFlush() returns (begun: bool)
      modifies this
      ensures begun == (old(activeFlush).None? && old(pendingSequences) != map[])
      ensures !begun ==> forall k :: View(k) == old(View(k))
      ensures begun ==> activeFlush == Some(old(pendingSequences))
                        && forall k :: View(k) == Checkpoint.BeginFlush(old(View(k)))
    {
      if activeFlush.Some? || pendingSequences == map[] { return false; }
      activeFlush := Some(pendingSequences);
      pendingSequences := map[];
      return true;
    }

    /** One of the writes of the flush in flight reaches the database. */
    method Land(k: nat)
      requires activeFlush.Some? && k in activeFlush.value
      modifies repository
      ensures repository.rows == if k in old(repository.rows)
                                 then old(repository.rows)[
                                        k := old(repository.rows)[k].(sequence := activeFlush.value[k])]
                                 else old(repository.rows)
    {
      repository.UpdateSequence(k, activeFlush.value[k]);
    }

    method FlushSucceeds()
      requires activeFlush.Some?
      modifies this
      ensures activeFlush.None?
      ensures forall k :: View(k) == Checkpoint.FlushSucceeds(old(View(k)))
    {
      var entries := activeFlush.value;
      var todo := entries.Keys;
      while todo != {}
        invariant todo <= entries.Keys
        invariant durableSequences.Keys == old(durableSequences).Keys + (entries.Keys - todo)
        invariant forall k :: k in durableSequences ==>
                    durableSequences[k] == (if k in entries && k !in todo
                                            then MaxOpt(entries[k], Get(old(durableSequences), k))
                                            else old(durableSequences)[k])
        invariant unchanged(`sessions) && unchanged(`pendingSequences) && unchanged(`acknowledgedSequences)
        decreases todo
      {
        var k :| k in todo;
        durableSequences := durableSequences[
          k := Max(entries[k], if k in durableSequences then durableSequences[k] else entries[k])];
        todo := todo - {k};
      }
      activeFlush := None;
    }

    method FlushFails()
      requires activeFlush.Some?
      modifies this
      ensures activeFlush.None?
      ensures forall k :: View(k) == Checkpoint.FlushFails(old(View(k)))
    {
      var entries := activeFlush.value;
      var todo := entries.Keys;
      while todo != {}
        invariant todo <= entries.Keys
        invariant pendingSequences.Keys == old(pendingSequences).Keys + (entries.Keys - todo)
        invariant forall k :: k in pendingSequences ==>
                    pendingSequences[k] == (if k in entries && k !in todo
                                            then MaxOpt(entries[k], Get(old(pendingSequences), k))
                                            else old(pendingSequences)[k])
        invariant unchanged(`sessions) && unchanged(`durableSequences) && unchanged(`acknowledgedSequences)
        decreases todo
      {
        var k :| k in todo;
        pendingSequences := pendingSequences[
          k := Max(entries[k], if k in pendingSequences then pendingSequences[k] else entries[k])];
        todo := todo - {k};
      }
      activeFlush := None;
    }
  }
}

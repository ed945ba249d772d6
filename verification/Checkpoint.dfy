/**
  The resume checkpoint of one shard, as a value: what DiscordGatewayResumeStore
  keeps for it in its maps, and what each call does to it. ResumeStore.dfy holds
  the class that keeps these values in place for all shards.
 */
module Checkpoint {
  import opened Prelude

  const MAX_UNCHECKPOINTED := 1000

  datatype Session = Session(id: string, resumeUrl: string, shardCount: int, sequence: int)

  /** `flushing` is the sequence that a flush in flight took out of `pending`. */
  datatype Shard = Shard(
    session: Option<Session>,
    durable: Option<int>,
    pending: Option<int>,
    flushing: Option<int>,
    acks: set<int>)

  /** The sequence below which an acknowledgement is already checkpointed. */
  function Position(s: Shard): int {
    Max(Or(s.durable, -1), Or(s.pending, -1))
  }

  /** Like Position, but also counting a flush in flight. */
  function Known(s: Shard): int {
    MaxOpt(Position(s), s.flushing)
  }

  /** Walks up from `from` for as long as the next number is acknowledged. */
  function Drain(acks: set<int>, from: int): (top: int)
    ensures from <= top
    ensures forall j :: from < j <= top ==> j in acks
    ensures top + 1 !in acks
    decreases |acks|
  {
    if from + 1 in acks then
      var rest := acks - {from + 1};
      var top := Drain(rest, from + 1);
      assert forall j :: from < j <= top ==> j in acks by {
        forall j | from < j <= top ensures j in acks {
          assert j == from + 1 || j in rest;
        }
      }
      top
    else
      from
  }

  function Above(acks: set<int>, from: int, top: int): set<int> {
    set j | j in acks && !(from < j <= top)
  }

  /** `sequence` is None when the packet carries no safe integer. */
  function Acknowledge(s: Shard, sequence: Option<int>): (Shard, bool) {
    if s.session.None? || sequence.None? then (s, false) else
    var n := Min(sequence.value, s.session.value.sequence);
    var from := Position(s);
    if n <= from then (s, true) else
    if |s.acks| >= MAX_UNCHECKPOINTED && n !in s.acks then (s, false) else
    var acks := s.acks + {n};
    var top := Drain(acks, from);
    (s.(acks := Above(acks, from, top), pending := if top == from then s.pending else Some(top)), true)
  }

  function SameIdentity(a: Session, b: Session): bool {
    a.id == b.id && a.resumeUrl == b.resumeUrl && a.shardCount == b.shardCount
  }

  /** `update`, with its save taken as one step with the assignment after it. */
  function Update(s: Shard, session: Option<Session>): Shard {
    if session.None? then
      s.(session := None, pending := None, durable := None, acks := {})
    else if s.session.Some? && SameIdentity(s.session.value, session.value) then
      s.(session := session)
    else
      s.(session := session, pending := None, acks := {}, durable := Some(session.value.sequence))
  }

  /** What `retrieve` shows of a loaded shard. */
  function Committed(s: Shard): Option<Session> {
    if s.session.None? || (s.durable.None? && s.pending.None?) then None else
    var top := if s.durable.None? then s.pending.value else MaxOpt(s.durable.value, s.pending);
    Some(s.session.value.(sequence := Min(s.session.value.sequence, top)))
  }

  function BeginFlush(s: Shard): Shard {
    s.(pending := None, flushing := s.pending)
  }

  function FlushSucceeds(s: Shard): Shard {
    if s.flushing.None? then s else
    s.(flushing := None, durable := Some(MaxOpt(s.flushing.value, s.durable)))
  }

  function FlushFails(s: Shard): Shard {
    if s.flushing.None? then s else
    s.(flushing := None, pending := Some(MaxOpt(s.flushing.value, s.pending)))
  }

  // --------------------------------------------------------------------
  // The safety bound

  /** Every dispatch of the session above `base` and up to `v` is in `covered`. */
  ghost predicate Backed(v: int, base: int, covered: iset<int>) {
    forall j :: base < j <= v ==> j in covered
  }

  ghost predicate BackedOpt(v: Option<int>, base: int, covered: iset<int>) {
    v.Some? ==> Backed(v.value, base, covered)
  }

  predicate Shaped(s: Shard, base: int) {
    && -1 <= base
    && (s.session.Some? ==> s.durable.Some? && base <= s.durable.value)
    && (s.pending.Some? ==> base <= s.pending.value)
    && (s.flushing.Some? ==> base <= s.flushing.value)
  }

  /** What every call keeps, within one session that started at `base`. */
  ghost predicate Sound(s: Shard, base: int, covered: iset<int>) {
    && Shaped(s, base)
    && BackedOpt(s.durable, base, covered)
    && BackedOpt(s.pending, base, covered)
    && BackedOpt(s.flushing, base, covered)
    && (forall j :: j in s.acks && j > base ==> j in covered)
  }

  lemma CommittedIsBacked(s: Shard, base: int, covered: iset<int>)
    requires Sound(s, base, covered)
    ensures Committed(s).Some? ==> Backed(Committed(s).value.sequence, base, covered)
  {
  }

  /** An acknowledgement of a covered dispatch that was observed keeps the bound. */
  lemma AcknowledgeKeepsSound(s: Shard, base: int, covered: iset<int>, sequence: Option<int>)
    requires Sound(s, base, covered)
    requires s.session.Some? && sequence.Some? ==> sequence.value <= s.session.value.sequence
    requires sequence.Some? ==> sequence.value in covered
    ensures Sound(Acknowledge(s, sequence).0, base, covered)
  {
    if s.session.Some? && sequence.Some? {
      var from, n := Position(s), sequence.value;
      var acks := s.acks + {n};
      var top := Drain(acks, from);
      forall j | base < j <= top ensures j in covered {
        if from < j {
          assert j in acks;
        } else if s.pending.Some? && j <= s.pending.value {
        } else {
          assert j <= s.durable.value;
        }
      }
    }
  }

  lemma FlushStepsKeepSound(s: Shard, base: int, covered: iset<int>)
    requires Sound(s, base, covered)
    ensures s.flushing.None? ==> Sound(BeginFlush(s), base, covered)
    ensures Sound(FlushSucceeds(s), base, covered)
    ensures Sound(FlushFails(s), base, covered)
  {
  }

  // --------------------------------------------------------------------
  // The clamp of an acknowledgement to the observed sequence

  /** The acknowledgement of `n` records some other number than `n`. */
  predicate RecordsAnother(s: Shard, n: int) {
    && s.session.Some?
    && s.session.value.sequence < n
    && Known(s) < s.session.value.sequence
    && s.session.value.sequence !in s.acks
    && |s.acks| < MAX_UNCHECKPOINTED
  }

  /** The least a sound shard says is covered, together with `n`. */
  ghost function LeastCover(s: Shard, base: int, n: int): iset<int> {
    iset j | (base < j <= Known(s)) || j in s.acks || j == n
  }

  /**
    Acknowledging a covered dispatch is sound, whatever else is covered, exactly
    when it does not fall into the clamp: an acknowledgement above the observed
    sequence marks the observed dispatch instead, which nobody acknowledged.
   */
  lemma AcknowledgeIsSoundIff(s: Shard, base: int, n: int)
    requires Shaped(s, base)
    requires base <= n
    ensures (forall covered: iset<int> :: Sound(s, base, covered) && n in covered ==>
               Sound(Acknowledge(s, Some(n)).0, base, covered))
            <==> !RecordsAnother(s, n)
  {
    if RecordsAnother(s, n) {
      var cover := LeastCover(s, base, n);
      var o := s.session.value.sequence;
      var t := Acknowledge(s, Some(n)).0;
      var top := Drain(s.acks + {o}, Position(s));
      assert Sound(s, base, cover);
      assert o !in cover;
      if top == Position(s) {
        assert o in t.acks;
      } else if top < o {
        assert o in t.acks;
      } else {
        assert t.pending == Some(top) && !Backed(top, base, cover);
      }
      assert !Sound(t, base, cover);
    } else {
      forall covered: iset<int> | Sound(s, base, covered) && n in covered
        ensures Sound(Acknowledge(s, Some(n)).0, base, covered)
      {
        if s.session.Some? && s.session.value.sequence < n {
          var o := s.session.value.sequence;
          if o <= Known(s) && s.flushing.Some? && base < o && o <= s.flushing.value {
            assert o in covered;
          }
          if o > base && (o <= Known(s) || o in s.acks) {
            assert o in covered;
            AcknowledgeKeepsSound(s, base, covered, Some(o));
            assert Acknowledge(s, Some(o)) == Acknowledge(s, Some(n));
          }
        } else {
          AcknowledgeKeepsSound(s, base, covered, Some(n));
        }
      }
    }
  }

  /**
    The hazard, concretely: a session is resumed at 10 and replays 11, while the
    handler of dispatch 15, started before the resume, finishes late. Its
    acknowledgement marks 11, whose handler has not finished.
   */
  lemma LateAcknowledgementMarksAnother()
    ensures var s := Shard(Some(Session("s", "u", 1, 11)), Some(10), None, None, {});
            && Sound(s, 10, iset{15})
            && Committed(Acknowledge(s, Some(15)).0).value.sequence == 11
            && !Backed(11, 10, iset{15})
  {
    var s := Shard(Some(Session("s", "u", 1, 11)), Some(10), None, None, {});
    assert Drain({} + {11}, 10) == 11;
    assert s.acks + {11} == {} + {11};
    var covered := iset{15};
    assert Backed(11, 10, covered) ==> 11 in covered;
  }

  // --------------------------------------------------------------------
  // Whole runs of one session

  datatype Event =
    | Observe(sequence: int)
    | Ack(acknowledged: Option<int>)
    | FlushBegin
    | FlushOk
    | FlushFail

  function Step(s: Shard, e: Event): Shard {
    match e
    case Observe(n) =>
      if s.session.None? then s else Update(s, Some(s.session.value.(sequence := n)))
    case Ack(n) => Acknowledge(s, n).0
    case FlushBegin => if s.flushing.None? then BeginFlush(s) else s
    case FlushOk => FlushSucceeds(s)
    case FlushFail => FlushFails(s)
  }

  function Run(s: Shard, events: seq<Event>): Shard
    decreases |events|
  {
    if events == [] then s else Run(Step(s, events[0]), events[1..])
  }

  /** Each acknowledgement is of a number no greater than the observed one then. */
  predicate AcksObserved(s: Shard, events: seq<Event>)
    decreases |events|
  {
    events == [] ||
    (&& (events[0].Ack? && events[0].acknowledged.Some? && s.session.Some? ==>
           events[0].acknowledged.value <= s.session.value.sequence)
     && AcksObserved(Step(s, events[0]), events[1..]))
  }

  /** The numbers that the run's callers acknowledged. */
  ghost function Acknowledged(events: seq<Event>): iset<int> {
    iset n | Ack(Some(n)) in events
  }

  lemma {:induction false} RunKeepsSound(s: Shard, base: int, covered: iset<int>, events: seq<Event>)
    requires Sound(s, base, covered) && AcksObserved(s, events)
    requires Acknowledged(events) <= covered
    ensures Sound(Run(s, events), base, covered)
    ensures |s.acks| <= MAX_UNCHECKPOINTED ==> |Run(s, events).acks| <= MAX_UNCHECKPOINTED
    decreases |events|
  {
    if events != [] {
      var e := events[0];
      if e.Ack? {
        if e.acknowledged.Some? {
          assert e == Ack(Some(e.acknowledged.value)) && e in events;
          assert e.acknowledged.value in Acknowledged(events);
        }
        AcknowledgeKeepsSound(s, base, covered, e.acknowledged);
        if |s.acks| <= MAX_UNCHECKPOINTED {
          AcksStayBounded(s, e.acknowledged);
        }
      } else {
        FlushStepsKeepSound(s, base, covered);
      }
      assert Acknowledged(events[1..]) <= Acknowledged(events);
      RunKeepsSound(Step(s, e), base, covered, events[1..]);
    }
  }

  lemma AcksStayBounded(s: Shard, sequence: Option<int>)
    requires |s.acks| <= MAX_UNCHECKPOINTED
    ensures |Acknowledge(s, sequence).0.acks| <= MAX_UNCHECKPOINTED
  {
    var t := Acknowledge(s, sequence).0;
    if t.acks != s.acks {
      var n := Min(sequence.value, s.session.value.sequence);
      assert t.acks <= s.acks + {n};
      SubsetSize(t.acks, s.acks + {n});
    }
  }

  lemma AcknowledgeKeepsSession(s: Shard, sequence: Option<int>)
    ensures Acknowledge(s, sequence).0.session == s.session
  {
  }

  lemma SubsetSize(a: set<int>, b: set<int>)
    requires a <= b
    ensures |a| <= |b|
  {
    assert a + (b - a) == b;
  }

  /** A freshly saved session: its starting sequence is durable, nothing else is known. */
  function Fresh(session: Session): Shard {
    Shard(Some(session), Some(session.sequence), None, None, {})
  }

  /**
    The checkpoint bound over every run of a session: the durable, pending,
    in-flight and returned sequences each end an unbroken run of acknowledged
    dispatches above the session's starting sequence, and the set of
    acknowledgements waiting out of order never exceeds its limit.
   */
  lemma CheckpointBound(session: Session, events: seq<Event>)
    requires -1 <= session.sequence && AcksObserved(Fresh(session), events)
    ensures var s := Run(Fresh(session), events);
            var acked := Acknowledged(events);
            && BackedOpt(s.durable, session.sequence, acked)
            && BackedOpt(s.pending, session.sequence, acked)
            && BackedOpt(s.flushing, session.sequence, acked)
            && Committed(s).Some?
            && Backed(Committed(s).value.sequence, session.sequence, acked)
            && |s.acks| <= MAX_UNCHECKPOINTED
  {
    var acked := Acknowledged(events);
    RunKeepsSound(Fresh(session), session.sequence, acked, events);
    CommittedIsBacked(Run(Fresh(session), events), session.sequence, acked);
    SessionStays(Fresh(session), events);
  }

  lemma {:induction false} SessionStays(s: Shard, events: seq<Event>)
    requires s.session.Some? && s.durable.Some?
    ensures Run(s, events).session.Some? && Run(s, events).durable.Some?
    decreases |events|
  {
    if events != [] {
      SessionStays(Step(s, events[0]), events[1..]);
    }
  }

  /** Another identity starts afresh: nothing that was known of the session before is kept. */
  lemma NewIdentityStartsFresh(s: Shard, next: Session)
    requires s.flushing.None? && (s.session.Some? ==> !SameIdentity(s.session.value, next))
    ensures Update(s, Some(next)) == Fresh(next)
  {
  }

  /** The same identity keeps all of it, and only the observed sequence moves. */
  lemma SameIdentityKeepsCheckpoint(s: Shard, next: Session)
    requires s.session.Some? && SameIdentity(s.session.value, next)
    ensures var t := Update(s, Some(next));
            && t.session == Some(next) && Position(t) == Position(s) && Known(t) == Known(s)
            && t.acks == s.acks && t.durable == s.durable && t.pending == s.pending && t.flushing == s.flushing
  {
  }

  /**
    The bound for runs that begin with a session of another identity, whatever was
    known before: what is returned is backed, above the new session's sequence, by
    the acknowledgements made since.
   */
  lemma CheckpointBoundAfterUpdate(earlier: Shard, next: Session, events: seq<Event>)
    requires earlier.flushing.None? && (earlier.session.Some? ==> !SameIdentity(earlier.session.value, next))
    requires -1 <= next.sequence && AcksObserved(Update(earlier, Some(next)), events)
    ensures var s := Run(Update(earlier, Some(next)), events);
            var acked := Acknowledged(events);
            && BackedOpt(s.durable, next.sequence, acked)
            && BackedOpt(s.pending, next.sequence, acked)
            && BackedOpt(s.flushing, next.sequence, acked)
            && Committed(s).Some? && SameIdentity(Committed(s).value, next)
            && Backed(Committed(s).value.sequence, next.sequence, acked)
            && |s.acks| <= MAX_UNCHECKPOINTED
  {
    NewIdentityStartsFresh(earlier, next);
    CheckpointBound(next, events);
    IdentityStays(Fresh(next), next, events);
  }

  lemma {:induction false} IdentityStays(s: Shard, session: Session, events: seq<Event>)
    requires s.session.Some? && s.durable.Some? && SameIdentity(s.session.value, session)
    ensures Run(s, events).session.Some? && SameIdentity(Run(s, events).session.value, session)
    decreases |events|
  {
    if events != [] {
      IdentityStays(Step(s, events[0]), session, events[1..]);
    }
  }

  /** What is shown is the session as observed, at the checkpoint or where it has been observed to, if that is less. */
  lemma CommittedShowsCheckpoint(s: Shard)
    requires s.session.Some? && Shaped(s, -1)
    ensures Committed(s) == Some(s.session.value.(sequence := Min(Position(s), s.session.value.sequence)))
  {
  }

  /** An acknowledgement is refused exactly for want of a session, a number, or room. */
  lemma AcknowledgeAcceptsIff(s: Shard, sequence: Option<int>)
    ensures Acknowledge(s, sequence).1 <==>
              && s.session.Some? && sequence.Some?
              && var n := Min(sequence.value, s.session.value.sequence);
              n <= Position(s) || n in s.acks || |s.acks| < MAX_UNCHECKPOINTED
  {
  }

  // --------------------------------------------------------------------
  // Nothing acknowledged is forgotten

  /** Every accepted number is below a known sequence or waits in `acks`. */
  ghost predicate Remembers(s: Shard, accepted: iset<int>) {
    forall j :: j in accepted ==> j <= Known(s) || j in s.acks
  }

  lemma StepRemembers(s: Shard, accepted: iset<int>, e: Event)
    requires s.session.Some? && Shaped(s, -1) && Remembers(s, accepted)
    ensures Remembers(Step(s, e), accepted) && Shaped(Step(s, e), -1)
    ensures e.Ack? && e.acknowledged.Some? && Acknowledge(s, e.acknowledged).1
            && e.acknowledged.value <= s.session.value.sequence ==>
              Remembers(Step(s, e), accepted + iset{e.acknowledged.value})
  {
  }

  /** The numbers whose acknowledgement a run accepts. */
  ghost function Accepted(s: Shard, events: seq<Event>): iset<int>
    decreases |events|
  {
    if events == [] then iset{} else
    var e := events[0];
    var rest := Accepted(Step(s, e), events[1..]);
    if e.Ack? && e.acknowledged.Some? && Acknowledge(s, e.acknowledged).1
    then rest + iset{e.acknowledged.value} else rest
  }

  lemma {:induction false} RunRemembers(s: Shard, accepted: iset<int>, events: seq<Event>)
    requires s.session.Some? && Shaped(s, -1) && AcksObserved(s, events)
    requires Remembers(s, accepted)
    ensures Remembers(Run(s, events), accepted + Accepted(s, events))
    decreases |events|
  {
    if events == [] {
      assert accepted + iset{} == accepted;
    } else {
      var e := events[0];
      StepRemembers(s, accepted, e);
      var now := if e.Ack? && e.acknowledged.Some? && Acknowledge(s, e.acknowledged).1
                 then accepted + iset{e.acknowledged.value} else accepted;
      RunRemembers(Step(s, e), now, events[1..]);
      assert accepted + Accepted(s, events) == now + Accepted(Step(s, e), events[1..]);
    }
  }

  /**
    With no flush in flight, an acknowledgement above the checkpoint moves it to
    the end of every unbroken run of accepted dispatches.
   */
  lemma AcknowledgeCatchesUp(s: Shard, accepted: iset<int>, n: int, v: int)
    requires s.session.Some? && s.flushing.None? && Remembers(s, accepted)
    requires Position(s) < n <= s.session.value.sequence && Acknowledge(s, Some(n)).1
    requires forall j :: Position(s) < j <= v ==> j in accepted || j == n
    ensures v <= Position(Acknowledge(s, Some(n)).0)
  {
  }

  /** An accepted acknowledgement, just above the checkpoint, that the checkpoint leaves out. */
  predicate Lags(s: Shard) {
    Position(s) + 1 in s.acks
  }

  /** The numbers whose acknowledgement a run accepts while a flush is in flight. */
  ghost function AcceptedInFlush(s: Shard, events: seq<Event>): iset<int>
    decreases |events|
  {
    if events == [] then iset{} else
    var e := events[0];
    var rest := AcceptedInFlush(Step(s, e), events[1..]);
    if e.Ack? && e.acknowledged.Some? && Acknowledge(s, e.acknowledged).1 && s.flushing.Some?
    then rest + iset{e.acknowledged.value} else rest
  }

  /** If the acknowledgement next above everything known waits, it was accepted during a flush. */
  ghost predicate WaitsForFlush(s: Shard, inFlush: iset<int>) {
    s.session.Some? && Shaped(s, -1) && (Known(s) + 1 in s.acks ==> Known(s) + 1 in inFlush)
  }

  lemma StepWaitsForFlush(s: Shard, inFlush: iset<int>, e: Event)
    requires WaitsForFlush(s, inFlush)
    requires e.Ack? && e.acknowledged.Some? ==> e.acknowledged.value <= s.session.value.sequence
    ensures WaitsForFlush(Step(s, e),
              if e.Ack? && e.acknowledged.Some? && Acknowledge(s, e.acknowledged).1 && s.flushing.Some?
              then inFlush + iset{e.acknowledged.value} else inFlush)
  {
  }

  lemma {:induction false} RunWaitsForFlush(s: Shard, inFlush: iset<int>, events: seq<Event>)
    requires WaitsForFlush(s, inFlush) && AcksObserved(s, events)
    ensures WaitsForFlush(Run(s, events), inFlush + AcceptedInFlush(s, events))
    decreases |events|
  {
    if events == [] {
      assert inFlush + iset{} == inFlush;
    } else {
      var e := events[0];
      StepWaitsForFlush(s, inFlush, e);
      var now := if e.Ack? && e.acknowledged.Some? && Acknowledge(s, e.acknowledged).1 && s.flushing.Some?
                 then inFlush + iset{e.acknowledged.value} else inFlush;
      RunWaitsForFlush(Step(s, e), now, events[1..]);
      assert inFlush + AcceptedInFlush(s, events) == now + AcceptedInFlush(Step(s, e), events[1..]);
    }
  }

  lemma {:induction false} InFlushIsAccepted(s: Shard, events: seq<Event>)
    ensures AcceptedInFlush(s, events) <= Accepted(s, events)
    decreases |events|
  {
    if events != [] { InFlushIsAccepted(Step(s, events[0]), events[1..]); }
  }

  /**
    Outside a flush, the checkpoint of a session leaves out the next accepted
    acknowledgement exactly when that was accepted while a flush was in flight:
    at any point of any run, and so when a flush has succeeded or failed.
   */
  lemma CheckpointLagsIff(session: Session, events: seq<Event>)
    requires -1 <= session.sequence && AcksObserved(Fresh(session), events)
    requires Run(Fresh(session), events).flushing.None?
    ensures var s := Run(Fresh(session), events);
            && (Lags(s) <==> Position(s) + 1 in AcceptedInFlush(Fresh(session), events))
            && (Lags(s) <==> Position(s) + 1 in Accepted(Fresh(session), events))
  {
    var s := Fresh(session);
    RunWaitsForFlush(s, iset{}, events);
    assert iset{} + AcceptedInFlush(s, events) == AcceptedInFlush(s, events);
    assert Remembers(s, iset{});
    RunRemembers(s, iset{}, events);
    assert iset{} + Accepted(s, events) == Accepted(s, events);
    InFlushIsAccepted(s, events);
  }

  /** When a flush succeeds, or fails, it is the acknowledgement next above everything known that decides. */
  lemma FlushEndLagsIff(s: Shard)
    requires Shaped(s, -1) && s.session.Some? && s.flushing.Some?
    ensures Lags(FlushSucceeds(s)) <==> Known(s) + 1 in s.acks
    ensures Lags(FlushFails(s)) <==> Known(s) + 1 in s.acks
  {
  }

  /** Such a run: 14 arrives while 13 is being flushed, and stays out until another one arrives. */
  lemma AcknowledgementWaitsAfterFlush()
    ensures var s := Shard(Some(Session("s", "u", 1, 14)), Some(10), Some(13), None, {});
            var t := Run(s, [FlushBegin, Ack(Some(14)), FlushOk]);
            t.acks == {14} && Committed(t).value.sequence == 13
  {
  }

  /** The sequence shown to a resume falls back while a flush is in flight exactly then. */
  lemma FlushHidesPendingIff(s: Shard)
    requires s.session.Some? && s.durable.Some?
    ensures Committed(BeginFlush(s)) == Committed(s) <==>
            (s.pending.None? || s.pending.value <= s.durable.value || s.session.value.sequence <= s.durable.value)
  {
  }

  /** Outside a flush, no acknowledgement moves the shown sequence back. */
  lemma AcknowledgeNeverMovesBack(s: Shard, n: Option<int>)
    requires Committed(s).Some?
    ensures Committed(Acknowledge(s, n).0).Some?
    ensures Committed(s).value.sequence <= Committed(Acknowledge(s, n).0).value.sequence
  {
  }
}

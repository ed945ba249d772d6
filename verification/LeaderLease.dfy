/**
  Leadership over the owner-checked Redis lock: services acquire it, lead while
  they believe to hold it, renew it on a timer and abandon it when a renewal is
  lost or fails twice in a row. One clock, in milliseconds.
 */
module LeaderLease {
  import opened Prelude

  /**
    `ttl` of the lock, `every` between renewals, `answer` under which each
    renewal is answered, and `start` from the lock being taken to the timer
    being set.
   */
  datatype Config = Config(ttl: nat, every: nat, answer: nat, start: nat)

  datatype Lock = Free | Held(token: nat, expiry: nat)

  datatype RenewResult = Renewed | Lost | Error

  /** A renewal sent at `sentAt`; `ran` is its outcome once Redis has executed it. */
  datatype Renewal = Renewal(sentAt: nat, ran: Option<RenewResult>)

  datatype Service =
    | Standby
    | Starting(token: nat, acquiredAt: nat)
    | Leading(token: nat, nextTick: nat, renewal: Option<Renewal>, streak: nat, leaseValid: bool)

  datatype World = World(now: nat, lock: Lock, services: map<nat, Service>, tokens: nat)

  predicate Owns(w: World, token: nat) {
    w.lock.Held? && w.lock.token == token && w.now < w.lock.expiry
  }

  /** What the answer to a renewal does to the lease and to the streak of errors. */
  function LeaseAfter(leaseValid: bool, streak: nat, result: RenewResult): (bool, nat) {
    match result
    case Renewed => (leaseValid, 0)
    case Lost => (false, streak)
    case Error => (leaseValid && streak + 1 < 2, streak + 1)
  }

  function OnRenewal(s: Service, result: RenewResult): Service
    requires s.Leading?
  {
    var (leaseValid, streak) := LeaseAfter(s.leaseValid, s.streak, result);
    s.(leaseValid := leaseValid, streak := streak)
  }

  datatype Action =
    | Wait(d: nat)
    | Acquire(i: nat)
    | Begin(i: nat)
    | Send(i: nat)
    | Execute(i: nat)
    | Answer(i: nat, lostReply: bool)
    | Leave(i: nat, released: bool)

  /** The latest time at which the service lets the clock stand without acting. */
  predicate Allows(cfg: Config, s: Service, now: nat) {
    match s
    case Standby => true
    case Starting(_, at) => now <= at + cfg.start
    case Leading(_, nextTick, renewal, _, valid) =>
      valid ==> if renewal.None? then now <= nextTick else now < renewal.value.sentAt + cfg.answer
  }

  function At(w: World, i: nat): Service {
    if i in w.services then w.services[i] else Standby
  }

  predicate Enabled(cfg: Config, w: World, a: Action) {
    match a
    case Wait(d) => forall i :: i in w.services ==> Allows(cfg, w.services[i], w.now + d)
    case Acquire(i) => At(w, i).Standby? && (w.lock.Free? || w.lock.expiry <= w.now)
    case Begin(i) => At(w, i).Starting?
    case Send(i) =>
      var s := At(w, i);
      s.Leading? && s.renewal.None? && s.nextTick <= w.now
    case Execute(i) => At(w, i).Leading? && At(w, i).renewal.Some? && At(w, i).renewal.value.ran.None?
    case Answer(i, _) => At(w, i).Leading? && At(w, i).renewal.Some?
    case Leave(i, _) => !At(w, i).Standby?
  }

  function Do(cfg: Config, w: World, a: Action): World
    requires Enabled(cfg, w, a)
  {
    match a
    case Wait(d) => w.(now := w.now + d)
    case Acquire(i) =>
      w.(lock := Held(w.tokens, w.now + cfg.ttl), tokens := w.tokens + 1,
         services := w.services[i := Starting(w.tokens, w.now)])
    case Begin(i) =>
      w.(services := w.services[i := Leading(At(w, i).token, w.now + cfg.every, None, 0, true)])
    case Send(i) =>
      var s := At(w, i);
      w.(services := w.services[i := s.(renewal := Some(Renewal(w.now, None)), nextTick := s.nextTick + cfg.every)])
    case Execute(i) =>
      var s := At(w, i);
      var owns := Owns(w, s.token);
      var ran := s.renewal.value.(ran := Some(if owns then Renewed else Lost));
      w.(services := w.services[i := s.(renewal := Some(ran))],
         lock := if owns then w.lock.(expiry := w.now + cfg.ttl) else w.lock)
    case Answer(i, lostReply) =>
      var s := At(w, i);
      var result := if s.renewal.value.ran.None? || lostReply then Error else s.renewal.value.ran.value;
      w.(services := w.services[i := OnRenewal(s, result).(renewal := None)])
    case Leave(i, released) =>
      w.(services := w.services[i := Standby],
         lock := if released && Owns(w, At(w, i).token) then Free else w.lock)
  }

  const INIT: World := World(0, Free, map[], 0)

  function Run(cfg: Config, w: World, actions: seq<Action>): World
    decreases |actions|
  {
    if actions == [] then w
    else if Enabled(cfg, w, actions[0]) then Run(cfg, Do(cfg, w, actions[0]), actions[1..])
    else Run(cfg, w, actions[1..])
  }

  /** At most one service holds a valid lease. */
  ghost predicate Exclusive(w: World) {
    forall i, j :: i in w.services && j in w.services && i != j ==>
      !(w.services[i].Leading? && w.services[i].leaseValid && w.services[j].Leading? && w.services[j].leaseValid)
  }

  // --------------------------------------------------------------------
  // Why the second error always comes before the expiry

  /** The lock of a valid leader lasts beyond the answer to the renewal that would end its streak. */
  ghost predicate Secure(cfg: Config, w: World, s: Service) {
    match s
    case Standby => true
    case Starting(token, at) =>
      w.lock.Held? && w.lock.token == token && w.lock.expiry == at + cfg.ttl && at <= w.now <= at + cfg.start
    case Leading(token, nextTick, renewal, streak, valid) =>
      valid ==>
        && Owns(w, token) && streak < 2
        && Allows(cfg, s, w.now)
        && (renewal.None? ==> nextTick + (1 - streak) * cfg.every + cfg.answer <= w.lock.expiry)
        && (renewal.Some? ==>
              var r := renewal.value;
              && r.sentAt <= w.now
              && nextTick == r.sentAt + cfg.every
              && r.sentAt + (1 - streak) * cfg.every + cfg.answer <= w.lock.expiry
              && (r.ran.Some? ==> r.ran == Some(Renewed) && r.sentAt + cfg.ttl <= w.lock.expiry))
  }

  function TokenOf(s: Service): Option<nat> {
    match s
    case Standby => None
    case Starting(token, _) => Some(token)
    case Leading(token, _, _, _, _) => Some(token)
  }

  ghost predicate Inv(cfg: Config, w: World) {
    && (forall i :: i in w.services ==> Secure(cfg, w, w.services[i]))
    && (forall i :: i in w.services && TokenOf(w.services[i]).Some? ==> TokenOf(w.services[i]).value < w.tokens)
    && (forall i, j :: i in w.services && j in w.services && i != j && TokenOf(w.services[i]).Some? ==>
          TokenOf(w.services[i]) != TokenOf(w.services[j]))
    && (w.lock.Held? ==> w.lock.token < w.tokens)
  }

  predicate Timely(cfg: Config) {
    cfg.start + 2 * cfg.every + cfg.answer <= cfg.ttl
  }

  function Actor(a: Action): Option<nat> {
    match a
    case Wait(_) => None
    case _ => Some(a.i)
  }

  /** The step of one service, or of the clock, leaves the others secure. */
  lemma OthersStaySecure(cfg: Config, w: World, a: Action, j: nat)
    requires 0 < cfg.answer && Timely(cfg)
    requires Inv(cfg, w) && Enabled(cfg, w, a)
    requires j in w.services && Actor(a) != Some(j)
    ensures Secure(cfg, Do(cfg, w, a), w.services[j])
  {
  }

  lemma ActorStaysSecure(cfg: Config, w: World, a: Action)
    requires 0 < cfg.answer <= cfg.every && Timely(cfg)
    requires Inv(cfg, w) && Enabled(cfg, w, a) && Actor(a).Some?
    ensures Secure(cfg, Do(cfg, w, a), At(Do(cfg, w, a), a.i))
  {
  }

  lemma StepKeepsInv(cfg: Config, w: World, a: Action)
    requires 0 < cfg.answer <= cfg.every && Timely(cfg)
    requires Inv(cfg, w) && Enabled(cfg, w, a)
    ensures Inv(cfg, Do(cfg, w, a))
  {
    hide Secure;
    var r := Do(cfg, w, a);
    forall j | j in r.services ensures Secure(cfg, r, r.services[j]) {
      if Actor(a) == Some(j) {
        ActorStaysSecure(cfg, w, a);
      } else {
        OthersStaySecure(cfg, w, a, j);
      }
    }
  }

  lemma InvIsExclusive(cfg: Config, w: World)
    requires Inv(cfg, w)
    ensures Exclusive(w)
  {
  }

  lemma {:induction false} RunIsExclusive(cfg: Config, w: World, actions: seq<Action>)
    requires 0 < cfg.answer <= cfg.every && Timely(cfg)
    requires Inv(cfg, w)
    ensures Exclusive(Run(cfg, w, actions))
    decreases |actions|
  {
    if actions == [] {
      InvIsExclusive(cfg, w);
    } else if Enabled(cfg, w, actions[0]) {
      StepKeepsInv(cfg, w, actions[0]);
      RunIsExclusive(cfg, Do(cfg, w, actions[0]), actions[1..]);
    } else {
      RunIsExclusive(cfg, w, actions[1..]);
    }
  }

  // --------------------------------------------------------------------
  // Exactly when

  lemma {:induction false} RunThen(cfg: Config, w: World, actions: seq<Action>, a: Action)
    ensures var r := Run(cfg, w, actions);
            Run(cfg, w, actions + [a]) == if Enabled(cfg, r, a) then Do(cfg, r, a) else r
    decreases |actions|
  {
    var all := actions + [a];
    if actions == [] {
      assert all[1..] == [];
    } else {
      assert all[1..] == actions[1..] + [a];
      RunThen(cfg, if Enabled(cfg, w, actions[0]) then Do(cfg, w, actions[0]) else w, actions[1..], a);
    }
  }

  /**
    The first leader's timer is set as late as it may be, and its first two
    renewals fail as late as they may: meanwhile the lock expires and another
    service takes it.
   */
  function LateErrors(cfg: Config): seq<Action>
    requires 0 < cfg.answer <= cfg.every
  {
    [Acquire(0), Wait(cfg.start), Begin(0),
     Wait(cfg.every), Send(0), Wait(cfg.answer - 1), Answer(0, true),
     Wait(cfg.every - (cfg.answer - 1)), Send(0), Wait(cfg.answer - 1),
     Acquire(1), Begin(1)]
  }

  /** The worlds that this run passes through. */
  function Stage(cfg: Config, n: nat): World
    requires 0 < cfg.answer <= cfg.every && n <= 12
  {
    var s, e, t := cfg.start, cfg.every, cfg.start + cfg.every;
    var taken := Held(0, cfg.ttl);
    var lead := k => map[0 := k];
    if n == 0 then INIT
    else if n == 1 then World(0, taken, lead(Starting(0, 0)), 1)
    else if n == 2 then World(s, taken, lead(Starting(0, 0)), 1)
    else if n == 3 then World(s, taken, lead(Leading(0, t, None, 0, true)), 1)
    else if n == 4 then World(t, taken, lead(Leading(0, t, None, 0, true)), 1)
    else if n == 5 then World(t, taken, lead(Leading(0, t + e, Some(Renewal(t, None)), 0, true)), 1)
    else if n == 6 then World(t + cfg.answer - 1, taken, lead(Leading(0, t + e, Some(Renewal(t, None)), 0, true)), 1)
    else if n == 7 then World(t + cfg.answer - 1, taken, lead(Leading(0, t + e, None, 1, true)), 1)
    else if n == 8 then World(t + e, taken, lead(Leading(0, t + e, None, 1, true)), 1)
    else
      var u := t + e + cfg.answer - 1;
      var late := Leading(0, t + 2 * e, Some(Renewal(t + e, None)), 1, true);
      if n == 9 then World(t + e, taken, lead(late), 1)
      else if n == 10 then World(u, taken, lead(late), 1)
      else World(u, Held(1, u + cfg.ttl),
                 map[0 := late, 1 := if n == 11 then Starting(1, u) else Leading(1, u + e, None, 0, true)], 2)
  }

  lemma EarlyStages(cfg: Config, n: nat)
    requires 0 < cfg.answer <= cfg.every && n < 5
    ensures Enabled(cfg, Stage(cfg, n), LateErrors(cfg)[n])
    ensures Do(cfg, Stage(cfg, n), LateErrors(cfg)[n]) == Stage(cfg, n + 1)
  {
  }

  lemma LateStages(cfg: Config, n: nat)
    requires 0 < cfg.answer <= cfg.every && 5 <= n < 12 && !Timely(cfg)
    ensures Enabled(cfg, Stage(cfg, n), LateErrors(cfg)[n])
    ensures Do(cfg, Stage(cfg, n), LateErrors(cfg)[n]) == Stage(cfg, n + 1)
  {
  }

  lemma {:induction false} ReachesStage(cfg: Config, n: nat)
    requires 0 < cfg.answer <= cfg.every && !Timely(cfg) && n <= 12
    ensures Run(cfg, INIT, LateErrors(cfg)[..n]) == Stage(cfg, n)
  {
    if n > 0 {
      hide Stage, Do, Enabled;
      ReachesStage(cfg, n - 1);
      if n <= 5 { EarlyStages(cfg, n - 1); } else { LateStages(cfg, n - 1); }
      StepTo(cfg, LateErrors(cfg), n - 1, Stage(cfg, n - 1));
    }
  }

  lemma LateErrorsOverlap(cfg: Config)
    requires 0 < cfg.answer <= cfg.every && !Timely(cfg)
    ensures !Exclusive(Run(cfg, INIT, LateErrors(cfg)))
  {
    ReachesStage(cfg, 12);
    assert LateErrors(cfg)[..12] == LateErrors(cfg);
    var last := Stage(cfg, 12);
    assert last.services[0].leaseValid && last.services[1].leaseValid;
  }

  /** One step of a run whose prefix reaches `w`. */
  lemma StepTo(cfg: Config, actions: seq<Action>, n: nat, w: World)
    requires n < |actions| && Run(cfg, INIT, actions[..n]) == w && Enabled(cfg, w, actions[n])
    ensures Run(cfg, INIT, actions[..n + 1]) == Do(cfg, w, actions[n])
  {
    RunThen(cfg, INIT, actions[..n], actions[n]);
    assert actions[..n + 1] == actions[..n] + [actions[n]];
  }

  /** Two leaders never coincide, in any run, exactly when the timings fit the lock's life. */
  lemma ExclusiveIff(cfg: Config)
    requires 0 < cfg.answer <= cfg.every
    ensures (forall actions :: Exclusive(Run(cfg, INIT, actions))) <==> Timely(cfg)
  {
    if Timely(cfg) {
      forall actions ensures Exclusive(Run(cfg, INIT, actions)) {
        RunIsExclusive(cfg, INIT, actions);
      }
    } else {
      LateErrorsOverlap(cfg);
    }
  }

  /**
    With a 30 s lock and 10 s ticks, answers under 10 s alone are enough only if
    the timer is set the moment the lock is taken; otherwise the two delays have
    to fit in 10 s together.
   */
  lemma ShippedConfig(answer: nat, start: nat)
    requires 0 < answer <= 10_000
    ensures (forall actions :: Exclusive(Run(Config(30_000, 10_000, answer, start), INIT, actions)))
            <==> start + answer <= 10_000
  {
    ExclusiveIff(Config(30_000, 10_000, answer, start));
  }

  // --------------------------------------------------------------------
  // The leader's own state

  /** What can come in between while the leader waits: the answer to a renewal, or the order to stop. */
  datatype Interruption = RenewalAnswer(result: RenewResult) | Stop

  /** No answer was "lost", and no two errors came in a row. */
  predicate KeepsLease(answers: seq<RenewResult>) {
    Lost !in answers && forall i :: 0 <= i < |answers| - 1 ==> !(answers[i] == Error && answers[i + 1] == Error)
  }

  function LeaseOver(leaseValid: bool, streak: nat, answers: seq<RenewResult>): (bool, nat) {
    if answers == [] then (leaseValid, streak)
    else
      var (valid, n) := LeaseOver(leaseValid, streak, answers[..|answers| - 1]);
      LeaseAfter(valid, n, answers[|answers| - 1])
  }

  /** A fresh lease is valid after some answers exactly when none was "lost" and no two errors were adjacent. */
  lemma {:induction false} LeaseValidIff(answers: seq<RenewResult>)
    ensures var (valid, streak) := LeaseOver(true, 0, answers);
            && (valid <==> KeepsLease(answers))
            && (valid ==> streak == if answers != [] && answers[|answers| - 1] == Error then 1 else 0)
  {
    if answers != [] {
      LeaseValidIff(answers[..|answers| - 1]);
      OneMoreAnswer(answers[..|answers| - 1], answers[|answers| - 1]);
      assert answers == answers[..|answers| - 1] + [answers[|answers| - 1]];
    }
  }

  lemma OneMoreAnswer(answers: seq<RenewResult>, result: RenewResult)
    ensures KeepsLease(answers + [result]) <==>
              && KeepsLease(answers) && result != Lost
              && !(result == Error && answers != [] && answers[|answers| - 1] == Error)
  {
    var more := answers + [result];
    assert more[|answers|] == result;
    assert forall i :: 0 <= i < |answers| ==> more[i] == answers[i];
    if KeepsLease(more) && answers != [] {
      assert more[|answers| - 1] == answers[|answers| - 1];
    }
  }

  function AnswersIn(meanwhile: seq<Interruption>): seq<RenewResult> {
    if meanwhile == [] then [] else
    var front, last := AnswersIn(meanwhile[..|meanwhile| - 1]), meanwhile[|meanwhile| - 1];
    if last.RenewalAnswer? then front + [last.result] else front
  }

  /** What runAsLeader keeps of its lease and of its delivery worker. */
  class Leadership {
    var leaseValid: bool
    var renewErrorStreak: nat
    var stopped: bool
    /** The worker whose promise is held, and the workers that have not unwound yet. */
    var delivery: Option<nat>
    var running: set<nat>
    var aborted: set<nat>
    var secret: Option<string>
    var started: nat
    /** Every answer to a renewal so far. */
    ghost var answers: seq<RenewResult>

    ghost predicate Valid()
      reads this
    {
      && running <= (if delivery.Some? then {delivery.value} else {})
      && (forall n :: n in running ==> n < started) && (forall n :: n in aborted ==> n < started)
      && (delivery.Some? ==> delivery.value < started)
      && (leaseValid <==> KeepsLease(answers))
      && (leaseValid ==> renewErrorStreak == if answers != [] && answers[|answers| - 1] == Error then 1 else 0)
      && (!leaseValid && delivery.Some? ==> delivery.value in aborted)
    }

    constructor ()
      ensures Valid() && leaseValid && renewErrorStreak == 0 && running == {} && !stopped
      ensures answers == [] && delivery.None? && secret.None?
    {
      answers := [];
      leaseValid, renewErrorStreak, stopped := true, 0, false;
      delivery, running, aborted, secret, started := None, {}, {}, None, 0;
    }

    /**
      The answer to a renewal. By `Valid` the lease ends with the first answer that
      is "lost" or a second error in a row, and the worker held then is aborted.
     */
    method OnRenewalAnswer(result: RenewResult)
      requires Valid()
      modifies this`leaseValid, this`renewErrorStreak, this`aborted, this`answers
      ensures Valid() && answers == old(answers) + [result] && (!old(leaseValid) ==> !leaseValid)
      ensures (leaseValid, renewErrorStreak) == LeaseAfter(old(leaseValid), old(renewErrorStreak), result)
      ensures old(aborted) <= aborted
    {
      OneMoreAnswer(answers, result);
      answers := answers + [result];
      match result
      case Renewed => renewErrorStreak := 0;
      case Lost => AbandonLeadership();
      case Error =>
        renewErrorStreak := renewErrorStreak + 1;
        if renewErrorStreak >= 2 { AbandonLeadership(); }
    }

    method AbandonLeadership()
      modifies this`leaseValid, this`aborted
      ensures !leaseValid && aborted == old(aborted) + (if delivery.Some? then {delivery.value} else {})
    {
      leaseValid := false;
      AbortDelivery();
    }

    method AbortDelivery()
      modifies this`aborted
      ensures aborted == old(aborted) + (if delivery.Some? then {delivery.value} else {})
    {
      if delivery.Some? { aborted := aborted + {delivery.value}; }
    }

    /** Aborts the worker and waits until it has unwound. */
    method StopWorker(meanwhile: seq<Interruption>)
      requires Valid() && delivery.Some?
      modifies this`leaseValid, this`renewErrorStreak, this`aborted, this`running, this`delivery, this`stopped
      modifies this`answers
      ensures Valid() && running == {} && delivery.None? && old(delivery).value in aborted
      ensures !old(leaseValid) ==> !leaseValid
      ensures answers == old(answers) + AnswersIn(meanwhile)
      ensures stopped <==> old(stopped) || Stop in meanwhile
    {
      hide LeaseAfter, KeepsLease;
      AbortDelivery();
      var i := 0;
      while i < |meanwhile|
        invariant 0 <= i <= |meanwhile|
        invariant Valid() && delivery == old(delivery) && running == old(running) && delivery.value in aborted
        invariant !old(leaseValid) ==> !leaseValid
        invariant answers == old(answers) + AnswersIn(meanwhile[..i])
        invariant stopped <==> old(stopped) || Stop in meanwhile[..i]
      {
        assert meanwhile[..i + 1][..i] == meanwhile[..i];
        match meanwhile[i] {
          case RenewalAnswer(result) => OnRenewalAnswer(result);
          case Stop => stopped := true;
        }
        assert meanwhile[..i + 1] == meanwhile[..i] + [meanwhile[i]];
        i := i + 1;
      }
      assert meanwhile[..|meanwhile|] == meanwhile;
      running := running - {delivery.value};
      delivery := None;
    }

    /**
      A worker is started only while the lease is valid, with the previous one
      unwound: never two at a time. `meanwhile` is what happens while the old
      worker is awaited; a service stopped then starts none. Unless it holds one
      with this secret already, it ends with a new worker whenever it may.
     */
    method EnsureDeliveryLoop(apiSecret: Option<string>, meanwhile: seq<Interruption>)
      requires Valid()
      modifies this
      ensures Valid() && |running| <= 1
      ensures started != old(started) ==>
                && leaseValid && !stopped && apiSecret.Some? && secret == apiSecret
                && started == old(started) + 1 && running == {old(started)} && old(started) !in aborted
      ensures apiSecret.None? ==> running == {}
      ensures !old(leaseValid) ==> !leaseValid && started == old(started)
      ensures var serves := apiSecret.Some? && apiSecret == old(secret) && old(delivery).Some?;
              var waits := !serves && old(delivery).Some?;
              && answers == old(answers) + (if waits then AnswersIn(meanwhile) else [])
              && (stopped <==> old(stopped) || (waits && Stop in meanwhile))
              && (waits ==> old(delivery).value in aborted)
              && (serves ==> delivery == old(delivery) && running == old(running) && started == old(started))
              && (!serves ==>
                    delivery == if leaseValid && !stopped && apiSecret.Some? then Some(old(started)) else None)
              && (!serves ==> running == if delivery.Some? then {delivery.value} else {})
    {
      hide KeepsLease, LeaseAfter, AnswersIn;
      if apiSecret.Some? && apiSecret == secret && delivery.Some? {
        SingletonSize(running, delivery.value);
        return;
      }
      if delivery.Some? { StopWorker(meanwhile); }
      if !leaseValid || stopped || apiSecret.None? {
        secret := None;
        return;
      }
      StartWorker(apiSecret);
    }

    method StartWorker(apiSecret: Option<string>)
      requires Valid() && delivery.None? && running == {} && leaseValid
      modifies this`delivery, this`running, this`started, this`secret
      ensures Valid() && delivery == Some(old(started)) && running == {old(started)}
      ensures started == old(started) + 1 && secret == apiSecret && old(started) !in aborted
    {
      delivery := Some(started);
      running := {started};
      started := started + 1;
      secret := apiSecret;
    }

    lemma SingletonSize(s: set<nat>, n: nat)
      requires s <= {n}
      ensures |s| <= 1
    {
      assert s == {} || s == {n};
    }
  }
}

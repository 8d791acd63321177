/**
 What parking a key promises: a key that a recovery run has parked is left alone until its endpoint
 is ready again or a new failure of it is recorded; a key parked from outside can be reached once
 more, exactly when a run was already bound to.
 */
module ParkedKeys {
  import opened Common
  import opened Runs
  import opened ManagedRecovery

  // ---------------------------------------------------------------- parked keys stay parked

  /** Can this current-epoch run still hand `key` to a recovery call, or turn it into a retry? */
  predicate Leaves(job: Job, s: Lane, key: Session)
  {
    match job.phase
    case Queued => job.selection == RetryOnly
    case AwaitingBarrier(_) => job.selection == RetryOnly
    case LeaseRefused(captured, error) => key in captured ==> error != RpcTimeout
    case Recovering(captured, managed) =>
      key !in managed && (key in captured && key in s.pending ==> s.pending[key].stage == Managed)
    case Waking(_, shared) => key !in shared
    case Returned => true
  }

  /** No retry is due for `key`, and no run already started or queued will serve it. */
  predicate Quiet(s: Lane, key: Session)
  {
    (key in s.pending ==> s.pending[key].disposition != Retry)
    && forall i :: 0 <= i < |s.queue| && s.queue[i].epoch == s.epoch ==> Leaves(s.queue[i], s, key)
  }

  predicate Wakes(ev: Event, key: Session)
  {
    ev == Ready || (ev.FailureRecorded? && ev.key == key)
  }

  lemma RecordFailuresTouchOnlyReported(pending: map<Session, Target>, failures: seq<(Session, Verdict)>, key: Session)
    requires forall i :: 0 <= i < |failures| ==> failures[i].0 != key
    ensures var r := RecordFailures(pending, failures);
      (key in r <==> key in pending) && (key in pending ==> r[key] == pending[key])
  {
    if failures != [] { RecordFailuresTouchOnlyReported(pending, failures[..|failures| - 1], key); }
  }

  /** The head keeps a lane quiet when the rest of the queue is untouched and the key is no retry. */
  lemma HeadKeepsQuiet(s: Lane, t: Lane, phase: Phase, key: Session)
    requires s.queue != [] && QueueIsOrdered(s) && Quiet(s, key)
    requires t.queue == s.queue && t.epoch == s.epoch
    requires key in t.pending ==> t.pending[key].disposition != Retry
    requires s.queue[0].epoch == s.epoch ==> Leaves(s.queue[0].(phase := phase), t, key)
    ensures Quiet(SetPhase(t, phase), key)
  {
    var u := SetPhase(t, phase);
    assert forall i :: 0 < i < |u.queue| ==> u.queue[i] == s.queue[i];
  }

  lemma PopKeepsQuiet(s: Lane, key: Session)
    requires s.queue != [] && Quiet(s, key) && QueueIsOrdered(s)
    ensures Quiet(Pop(s), key)
  {
    assert forall i :: 0 <= i < |Pop(s).queue| ==> Pop(s).queue[i] == s.queue[i + 1];
  }

  lemma WakeIfSharedKeepsQuiet(s: Lane, captured: map<Session, Target>, leaseCurrent: bool, key: Session)
    requires Inv(s) && Quiet(s, key) && s.queue != []
    requires s.queue[0].epoch == s.epoch ==> key !in SharedKeys(s, captured)
    ensures Quiet(WakeIfShared(s, captured, leaseCurrent), key)
    ensures WakeIfShared(s, captured, leaseCurrent).queue[0].phase.Waking? ==>
      key !in WakeIfShared(s, captured, leaseCurrent).queue[0].phase.shared
  {
    HeadKeepsQuiet(s, s, Returned, key);
    HeadKeepsQuiet(s, s, Waking(captured, SharedKeys(s, captured)), key);
  }

  lemma SelectTargetsKeepsQuiet(s: Lane, answer: LeaseAnswer, leaseCurrent: bool, key: Session)
    requires Inv(s) && Quiet(s, key) && s.queue != []
    requires s.queue[0].phase.Queued? || s.queue[0].phase.AwaitingBarrier?
    ensures Quiet(SelectTargets(s, answer, leaseCurrent), key)
    ensures key !in Attempted(s, SelectTargets(s, answer, leaseCurrent))
  {
    PopKeepsOrder(s);
    var job := s.queue[0];
    var captured := Targets(s, job.selection);
    if s.stopped || s.epoch != job.epoch {
      PopKeepsQuiet(s, key);
    } else if captured == map[] {
      PopKeepsQuiet(s.(reported := false), key);
    } else {
      assert key !in captured;
      if !job.leased && answer.Refused? { HeadKeepsQuiet(s, s, LeaseRefused(captured, answer.error), key); }
      else { RecoverKeepsQuiet(s, captured, leaseCurrent, key); }
    }
  }

  lemma RecoverKeepsQuiet(s: Lane, captured: map<Session, Target>, leaseCurrent: bool, key: Session)
    requires Inv(s) && Quiet(s, key) && s.queue != [] && key !in captured
    ensures Quiet(Recover(s, captured, leaseCurrent), key)
    ensures key !in Attempted(s, Recover(s, captured, leaseCurrent))
  {
    HeadKeepsQuiet(s, s, Returned, key);
    HeadKeepsQuiet(s, s, Recovering(captured, ManagedKeys(captured)), key);
    WakeIfSharedKeepsQuiet(s, captured, leaseCurrent, key);
  }

  lemma ApplyFailureParks(s: Lane, keys: set<Session>, error: Failure, stage: Stage, ready: bool, key: Session)
    requires key in s.pending ==> s.pending[key].disposition != Retry
    requires key in keys ==> ManagedRecoveryDisposition(error, ready) != RetryLater
    ensures var t := ApplyFailure(s, keys, error, stage, ready);
      key in t.pending ==> t.pending[key].disposition != Retry
  {
  }

  lemma RefusalKeepsQuiet(s: Lane, key: Session)
    requires Inv(s) && Quiet(s, key) && s.queue != [] && s.queue[0].phase.LeaseRefused?
    ensures Quiet(LeaseRefusalHandled(s), key)
  {
    var captured := s.queue[0].phase.captured;
    var error := s.queue[0].phase.error;
    var managed := ManagedKeys(captured);
    if s.stopped || s.epoch != s.queue[0].epoch {
      HeadKeepsQuiet(s, s, Returned, key);
    } else {
      var t := ApplyFailure(s, managed, error, Managed, false);
      ApplyFailureFrame(s, managed, error, Managed, false);
      ApplyFailureParks(s, managed, error, Managed, false, key);
      var u := ApplyFailure(t, captured.Keys - managed, error, Shared, false);
      ApplyFailureFrame(t, captured.Keys - managed, error, Shared, false);
      ApplyFailureParks(t, captured.Keys - managed, error, Shared, false, key);
      HeadKeepsQuiet(s, u, Returned, key);
      assert LeaseRefusalHandled(s) == SetPhase(u, Returned);
    }
  }

  lemma BatchKeepsQuiet(s: Lane, answer: Answer<Batch>, leaseCurrent: bool, key: Session)
    requires Inv(s) && Quiet(s, key) && s.queue != [] && s.queue[0].phase.Recovering?
    ensures Quiet(BatchReturns(s, answer, leaseCurrent), key)
    ensures key !in Attempted(s, BatchReturns(s, answer, leaseCurrent))
  {
    var managed := s.queue[0].phase.managed;
    HeadKeepsQuiet(s, s, Returned, key);
    if RunIsCurrent(s, s.queue[0].epoch, leaseCurrent) {
      BatchReturnsKeepsInv(s, answer, leaseCurrent);
      if answer.Err? {
        HeadKeepsQuiet(s, ApplyFailure(s, managed, answer.error, Managed, true), Returned, key);
      } else if !OnlyNames(answer.value, managed) {
        HeadKeepsQuiet(s, ApplyFailure(s, managed, OtherError, Managed, true), Returned, key);
      } else {
        var batch := answer.value;
        RecordFailuresTouchOnlyReported(RestoreKeys(s.pending, batch.restored) - batch.settled, batch.failures, key);
        var t := FileBatch(s, batch);
        assert key in t.pending ==> key in s.pending && t.pending[key].stage == s.pending[key].stage;
        HeadKeepsQuiet(s, t, Returned, key);
        HeadKeepsQuiet(s, t, Waking(s.queue[0].phase.captured, SharedKeys(t, s.queue[0].phase.captured)), key);
      }
    }
  }

  lemma WakeKeepsQuiet(s: Lane, answer: Answer<()>, leaseCurrent: bool, key: Session)
    requires Inv(s) && Quiet(s, key) && s.queue != [] && s.queue[0].phase.Waking?
    ensures Quiet(WakeReturns(s, answer, leaseCurrent), key)
  {
    var shared := s.queue[0].phase.shared;
    HeadKeepsQuiet(s, s, Returned, key);
    if RunIsCurrent(s, s.queue[0].epoch, leaseCurrent) {
      if answer.Err? { HeadKeepsQuiet(s, ApplyFailure(s, shared, answer.error, Shared, true), Returned, key); }
      HeadKeepsQuiet(s, s.(pending := s.pending - shared, reported := false), Returned, key);
    }
  }

  lemma QueueEventsKeepQuiet(s: Lane, ev: Event, key: Session)
    requires Inv(s) && Enabled(s, ev) && Quiet(s, key) && !Wakes(ev, key)
    requires ev.FailureRecorded? || ev.Unavailable? || ev.Stopped? || ev.IndependentWakeBegins? || ev.IndependentWakeEnds?
    ensures Quiet(Next(s, ev), key)
  {
  }

  lemma TimerKeepsQuiet(s: Lane, generation: nat, epoch: nat, key: Session)
    requires Inv(s) && Quiet(s, key)
    ensures Quiet(TimerFires(s, generation, epoch), key)
  {
    var t := TimerFires(s, generation, epoch);
    assert forall i :: 0 <= i < |s.queue| ==> t.queue[i] == s.queue[i];
  }

  lemma BeginRunKeepsQuiet(s: Lane, lease: LeaseAnswer, leaseCurrent: bool, key: Session)
    requires Inv(s) && Quiet(s, key) && s.queue != [] && s.queue[0].phase.Queued?
    ensures Quiet(BeginRun(s, lease, leaseCurrent), key)
    ensures key !in Attempted(s, BeginRun(s, lease, leaseCurrent))
  {
    if s.stopped {
      PopKeepsQuiet(s, key);
      PopKeepsOrder(s);
    } else if s.fallback.Some? {
      HeadKeepsQuiet(s, s, AwaitingBarrier(s.fallback.value), key);
    } else {
      SelectTargetsKeepsQuiet(s, lease, leaseCurrent, key);
    }
  }

  /** Nothing but a republished endpoint or a new failure of this key can serve a quiet key. */
  lemma QuietStays(s: Lane, ev: Event, key: Session)
    requires Inv(s) && Enabled(s, ev) && Quiet(s, key) && !Wakes(ev, key)
    ensures Quiet(Next(s, ev), key) && key !in Attempted(s, Next(s, ev))
  {
    match ev
    case RunBegins(lease, current) => BeginRunKeepsQuiet(s, lease, current, key);
    case BarrierReleased(lease, current) => SelectTargetsKeepsQuiet(s, lease, current, key);
    case RefusalHandled => RefusalKeepsQuiet(s, key);
    case BatchReturned(batch, current) => BatchKeepsQuiet(s, batch, current, key);
    case WakeReturned(wake, current) => WakeKeepsQuiet(s, wake, current, key);
    case RunReturned =>
      QueueEventsAttemptNothing(s, ev);
      PopKeepsQuiet(Schedule(s), key);
    case TimerFired(generation, epoch) =>
      QueueEventsAttemptNothing(s, ev);
      TimerKeepsQuiet(s, generation, epoch, key);
    case _ =>
      QueueEventsAttemptNothing(s, ev);
      QueueEventsKeepQuiet(s, ev, key);
  }

  /** In this state the run now resuming decides that `key` needs attention and parks it. */
  predicate ParksKey(s: Lane, ev: Event, t: Lane, key: Session)
  {
    (ev.RefusalHandled? || ev.BatchReturned? || ev.WakeReturned?)
    && key in t.pending && t.pending[key].disposition == Safety
    && !(key in s.pending && s.pending[key].disposition == Safety)
  }

  /** A run that parks a key leaves it quiet: no later run of its epoch was queued to take it. */
  lemma ParkingQuiets(s: Lane, ev: Event, t: Lane, key: Session)
    requires Inv(s) && Step(s, ev, t) && ParksKey(s, ev, t, key)
    ensures Quiet(t, key)
  {
    NextKeepsInv(s, ev);
    ParkingRunIsCurrent(s, ev, t, key);
    assert t.queue[0].epoch == t.epoch;
    forall i | 0 <= i < |t.queue| && t.queue[i].epoch == t.epoch
      ensures Leaves(t.queue[i], t, key)
    {
      if i == 0 { ParkingHeadLeaves(s, ev, t, key); }
    }
  }

  lemma ParkingRunIsCurrent(s: Lane, ev: Event, t: Lane, key: Session)
    requires Inv(s) && Step(s, ev, t) && ParksKey(s, ev, t, key)
    ensures !s.stopped && s.queue[0].epoch == s.epoch
    ensures t.queue != [] && t.queue[0].epoch == t.epoch
  {
    match ev
    case RefusalHandled => RefusingRunIsCurrent(s, t, key);
    case BatchReturned(batch, current) => BatchRunIsCurrent(s, batch, current, t, key);
    case _ =>
  }

  lemma RefusingRunIsCurrent(s: Lane, t: Lane, key: Session)
    requires Inv(s) && Step(s, RefusalHandled, t) && ParksKey(s, RefusalHandled, t, key)
    ensures !s.stopped && s.queue[0].epoch == s.epoch
    ensures t.queue != [] && t.queue[0].epoch == t.epoch
  {
    var captured := s.queue[0].phase.captured;
    ApplyFailureFrame(s, ManagedKeys(captured), s.queue[0].phase.error, Managed, false);
    var u := ApplyFailure(s, ManagedKeys(captured), s.queue[0].phase.error, Managed, false);
    ApplyFailureFrame(u, captured.Keys - ManagedKeys(captured), s.queue[0].phase.error, Shared, false);
  }

  lemma BatchRunIsCurrent(s: Lane, batch: Answer<Batch>, current: bool, t: Lane, key: Session)
    requires Inv(s) && Step(s, BatchReturned(batch, current), t) && ParksKey(s, BatchReturned(batch, current), t, key)
    ensures !s.stopped && s.queue[0].epoch == s.epoch
    ensures t.queue != [] && t.queue[0].epoch == t.epoch
  {
  }

  lemma {:induction false} RecordFailuresOrigin(pending: map<Session, Target>, failures: seq<(Session, Verdict)>, key: Session)
    ensures var r := RecordFailures(pending, failures);
      key in r ==> (key in pending && r[key] == pending[key]) || r[key].stage == Managed
  {
    if failures != [] { RecordFailuresOrigin(pending, failures[..|failures| - 1], key); }
  }

  lemma ParkingHeadLeaves(s: Lane, ev: Event, t: Lane, key: Session)
    requires Inv(s) && Step(s, ev, t) && ParksKey(s, ev, t, key) && t.queue != []
    ensures Leaves(t.queue[0], t, key)
  {
    match ev
    case BatchReturned(Ok(batch), _) =>
      RecordFailuresOrigin(RestoreKeys(s.pending, batch.restored) - batch.settled, batch.failures, key);
    case _ =>
  }

  lemma QuietStepsStay(key: Session)
    ensures forall s: Lane, ev: Event, t: Lane :: Inv(s) && Quiet(s, key) && !Wakes(ev, key) && Step(s, ev, t) ==> Quiet(t, key)
  {
    forall s: Lane, ev: Event, t: Lane | Inv(s) && Quiet(s, key) && !Wakes(ev, key) && Step(s, ev, t)
      ensures Quiet(t, key)
    {
      QuietStays(s, ev, key);
    }
  }

  lemma ParkedKeyIsQuiet(states: seq<Lane>, events: seq<Event>, parked: nat, key: Session)
    requires Trace(states, events) && parked < |events|
    requires ParksKey(states[parked], events[parked], states[parked + 1], key)
    ensures Quiet(states[parked + 1], key)
  {
    TraceKeepsInv(states, events, parked);
    ParkingQuiets(states[parked], events[parked], states[parked + 1], key);
  }

  lemma QuietOverStretch(states: seq<Lane>, events: seq<Event>, from: nat, to: nat, key: Session)
    requires Trace(states, events) && from <= to <= |events| && Quiet(states[from], key)
    requires forall i :: from <= i < to ==> !Wakes(events[i], key)
    ensures Quiet(states[to], key)
  {
    InitKeepsInv();
    StepKeepsInv();
    QuietStepsStay(key);
    HoldsFrom(Init, Step, Inv, (ev: Event) => !Wakes(ev, key), (s: Lane) => Quiet(s, key), states, events, from, to);
  }

  lemma QuietIsNotAttempted(s: Lane, ev: Event, t: Lane, key: Session)
    requires Inv(s) && Step(s, ev, t) && Quiet(s, key) && !Wakes(ev, key)
    ensures key !in Attempted(s, t)
  {
    QuietStays(s, ev, key);
  }

  /** Over a whole run, a key that a recovery run parked is not attempted again before its
      endpoint is republished or a new failure of that key is recorded. */
  lemma ParkedKeyWaits(states: seq<Lane>, events: seq<Event>, parked: nat, later: nat, key: Session)
    requires Trace(states, events) && parked < later < |events|
    requires ParksKey(states[parked], events[parked], states[parked + 1], key)
    requires forall i :: parked < i <= later ==> !Wakes(events[i], key)
    ensures key !in Attempted(states[later], states[later + 1])
  {
    ParkedKeyIsQuiet(states, events, parked, key);
    QuietOverStretch(states, events, parked + 1, later, key);
    TraceKeepsInv(states, events, later);
    QuietIsNotAttempted(states[later], events[later], states[later + 1], key);
  }

  // ---------------------------------------------------------------- keys parked from outside a run

  /** Some continuation of at most `n` events, none of which wakes the key, attempts it. */
  ghost predicate Reaches(s: Lane, key: Session, n: nat)
    decreases n
  {
    n > 0 && exists ev, t :: Step(s, ev, t) && !Wakes(ev, key) && (key in Attempted(s, t) || Reaches(t, key, n - 1))
  }

  lemma {:induction false} QuietIsUnreachable(s: Lane, key: Session, n: nat)
    requires Inv(s) && Quiet(s, key)
    ensures !Reaches(s, key, n)
    decreases n
  {
    if Reaches(s, key, n) {
      var ev, t :| Step(s, ev, t) && !Wakes(ev, key) && (key in Attempted(s, t) || Reaches(t, key, n - 1));
      QuietStays(s, ev, key);
      NextKeepsInv(s, ev);
      QuietIsUnreachable(t, key, n - 1);
    }
  }

  lemma UnavailableStays(s: Lane, ev: Event, t: Lane)
    requires Step(s, ev, t) && ev != Ready && (s.unavailable || s.stopped)
    ensures t.unavailable || t.stopped
  {
    match ev
    case RefusalHandled => RefusalKeepsUnavailable(s);
    case _ =>
  }

  lemma RefusalKeepsUnavailable(s: Lane)
    requires s.queue != [] && s.queue[0].phase.LeaseRefused? && (s.unavailable || s.stopped)
    ensures LeaseRefusalHandled(s).unavailable || LeaseRefusalHandled(s).stopped
  {
  }

  lemma {:induction false} UnavailableIsUnreachable(s: Lane, key: Session, n: nat)
    requires Inv(s) && (s.unavailable || s.stopped)
    ensures !Reaches(s, key, n)
    decreases n
  {
    if Reaches(s, key, n) {
      var ev, t :| Step(s, ev, t) && !Wakes(ev, key) && (key in Attempted(s, t) || Reaches(t, key, n - 1));
      UnavailableStays(s, ev, t);
      NextKeepsInv(s, ev);
      if key in Attempted(s, t) { AttemptsAreNeverStale(s, ev, key); }
      UnavailableIsUnreachable(t, key, n - 1);
    }
  }

  lemma StepBack(s: Lane, ev: Event, key: Session, n: nat)
    requires Enabled(s, ev) && !Wakes(ev, key)
    ensures key in Attempted(s, Next(s, ev)) || Reaches(Next(s, ev), key, n) ==> Reaches(s, key, n + 1)
  {
    assert Step(s, ev, Next(s, ev));
  }

  predicate Waiting(job: Job)
  {
    job.phase.Queued? || job.phase.AwaitingBarrier?
  }

  /** The first run of the current epoch has not selected its targets yet and will take `key`. */
  predicate Served(s: Lane, key: Session)
  {
    !s.stopped && !s.unavailable && exists i: nat :: i < |s.queue| && ServedAt(s, key, i)
  }

  predicate ServedAt(s: Lane, key: Session, i: nat)
  {
    key in s.pending && i < |s.queue| && s.queue[i].epoch == s.epoch && Waiting(s.queue[i])
    && (s.queue[i].selection == All || s.pending[key].disposition == Retry)
    && forall j :: 0 <= j < i ==> s.queue[j].epoch < s.epoch
  }

  lemma BarrierAttempts(s: Lane, key: Session) returns (n: nat)
    requires Inv(s) && key in s.pending && !s.stopped && !s.unavailable && s.queue != []
    requires s.queue[0].epoch == s.epoch && Waiting(s.queue[0])
    requires s.queue[0].phase.AwaitingBarrier? ==> s.queue[0].phase.barrier !in s.openBarriers
    requires s.queue[0].phase.Queued? ==> s.fallback.None?
    requires s.queue[0].selection == All || s.pending[key].disposition == Retry
    ensures Reaches(s, key, n)
  {
    var ev := if s.queue[0].phase.Queued? then RunBegins(Granted, true) else BarrierReleased(Granted, true);
    var t := Next(s, ev);
    assert t == SelectTargets(s, Granted, true);
    var captured := Targets(s, s.queue[0].selection);
    assert key in captured && captured != map[];
    NextKeepsInv(s, ev);
    if s.pending[key].stage == Managed {
      assert key in ManagedKeys(captured);
      StepBack(s, ev, key, 0);
      n := 1;
    } else if ManagedKeys(captured) == {} {
      assert key in SharedKeys(s, captured);
      StepBack(s, ev, key, 0);
      n := 1;
    } else {
      SharedAttempted(t, captured, key);
      StepBack(s, ev, key, 1);
      n := 2;
    }
  }

  lemma SharedAttempted(s: Lane, captured: map<Session, Target>, key: Session)
    requires Inv(s) && s.queue != [] && s.queue[0].phase.Recovering? && s.queue[0].phase.captured == captured
    requires RunIsCurrent(s, s.queue[0].epoch, true)
    requires key in captured && key in s.pending && s.pending[key].stage == Shared
    ensures Reaches(s, key, 1)
  {
    var none := Batch({}, {}, []);
    var ev := BatchReturned(Ok(none), true);
    assert RestoreKeys(s.pending, {}) - {} == s.pending;
    assert FileBatch(s, none).pending == s.pending;
    assert key in SharedKeys(FileBatch(s, none), captured);
    StepBack(s, ev, key, 0);
  }

  function Rank(job: Job): nat
  {
    match job.phase
    case Queued => 3
    case AwaitingBarrier(_) => 2
    case Returned => 0
    case _ => 1
  }

  predicate Blocked(s: Lane)
  {
    s.queue != []
    && match s.queue[0].phase
       case Queued => s.fallback.Some?
       case AwaitingBarrier(barrier) => barrier in s.openBarriers
       case _ => false
  }

  /** The event that moves the head of the tail on without touching any pending key. */
  function HeadEvent(s: Lane): Event
    requires s.queue != []
  {
    match s.queue[0].phase
    case Queued => RunBegins(Granted, true)
    case AwaitingBarrier(barrier) =>
      if barrier in s.openBarriers then IndependentWakeEnds(barrier) else BarrierReleased(Granted, true)
    case LeaseRefused(_, _) => RefusalHandled
    case Recovering(_, _) => BatchReturned(Err(OtherError), false)
    case Waking(_, _) => WakeReturned(Err(OtherError), false)
    case Returned => RunReturned
  }

  /** `t` is `s` with its head dropped (`None`) or moved to another phase, and no key touched. */
  predicate HeadBecomes(s: Lane, t: Lane, phase: Option<Phase>)
    requires s.queue != []
  {
    t.pending == s.pending && t.epoch == s.epoch && t.unavailable == s.unavailable && t.stopped == s.stopped
    && t.queue == match phase case None => s.queue[1..] case Some(p) => [s.queue[0].(phase := p)] + s.queue[1..]
  }

  lemma HeadMoves(s: Lane) returns (phase: Option<Phase>)
    requires s.queue != [] && !s.stopped && (s.queue[0].epoch < s.epoch || Blocked(s))
    ensures Enabled(s, HeadEvent(s)) && HeadBecomes(s, Next(s, HeadEvent(s)), phase)
    ensures phase.Some? ==>
      (Rank(s.queue[0].(phase := phase.value)) < Rank(s.queue[0])
       || (phase.value == s.queue[0].phase && Blocked(s) && !Blocked(Next(s, HeadEvent(s)))))
    ensures Blocked(s) ==> phase.Some? && phase.value.AwaitingBarrier?
  {
    match s.queue[0].phase
    case Queued => phase := if s.fallback.Some? then Some(AwaitingBarrier(s.fallback.value)) else None;
    case AwaitingBarrier(barrier) => phase := if barrier in s.openBarriers then Some(AwaitingBarrier(barrier)) else None;
    case Returned => phase := None;
    case _ => phase := Some(Returned);
  }

  lemma PopKeepsServed(s: Lane, t: Lane, key: Session)
    requires Served(s, key) && s.queue != [] && s.queue[0].epoch < s.epoch && HeadBecomes(s, t, None)
    ensures Served(t, key)
  {
    var i: nat :| i < |s.queue| && ServedAt(s, key, i);
    assert forall j :: 0 <= j < |t.queue| ==> t.queue[j] == s.queue[j + 1];
    assert ServedAt(t, key, i - 1);
  }

  lemma PhaseKeepsServed(s: Lane, t: Lane, phase: Phase, key: Session)
    requires Served(s, key) && s.queue != [] && HeadBecomes(s, t, Some(phase))
    requires s.queue[0].epoch < s.epoch || phase.AwaitingBarrier?
    ensures Served(t, key)
  {
    var i: nat :| i < |s.queue| && ServedAt(s, key, i);
    assert forall j :: 0 < j < |s.queue| ==> t.queue[j] == s.queue[j];
    assert ServedAt(t, key, i);
  }

  lemma {:induction false} ServedIsReached(s: Lane, key: Session) returns (n: nat)
    requires Inv(s) && Served(s, key)
    ensures Reaches(s, key, n)
    decreases |s.queue|, Rank(s.queue[0]), Blocked(s)
  {
    if s.queue[0].epoch == s.epoch && !Blocked(s) {
      n := BarrierAttempts(s, key);
    } else {
      var phase := HeadMoves(s);
      var t := Next(s, HeadEvent(s));
      NextKeepsInv(s, HeadEvent(s));
      if phase.None? { PopKeepsServed(s, t, key); } else { PhaseKeepsServed(s, t, phase.value, key); }
      var m := ServedIsReached(t, key);
      StepBack(s, HeadEvent(s), key, m);
      n := m + 1;
    }
  }

  /** Once a returning run left `key` as a retry, that run's end arms a timer or a queued run takes it. */
  lemma ReturnedRetryIsReached(s: Lane, key: Session) returns (n: nat)
    requires Inv(s) && !s.stopped && !s.unavailable && s.queue != [] && s.queue[0].phase.Returned?
    requires key in s.pending && s.pending[key].disposition == Retry
    ensures Reaches(s, key, n)
  {
    var t := RunReturns(s);
    NextKeepsInv(s, RunReturned);
    assert t.timer.Some?;
    assert forall i :: 0 <= i < |t.queue| ==> t.queue[i] == s.queue[i + 1];
    var fired := TimerFired(t.timer.value.generation, t.timer.value.epoch);
    var u := Next(t, fired);
    NextKeepsInv(t, fired);
    LastIsServed(u, key);
    var m := ServedIsReached(u, key);
    StepBack(t, fired, key, m);
    StepBack(s, RunReturned, key, m + 1);
    n := m + 2;
  }

  lemma LastIsServed(s: Lane, key: Session)
    requires Inv(s) && !s.stopped && !s.unavailable && key in s.pending && s.pending[key].disposition == Retry
    requires s.queue != [] && s.queue[|s.queue| - 1].epoch == s.epoch
    requires forall i :: 0 <= i < |s.queue| ==> s.queue[i].phase == Queued
    ensures Served(s, key)
  {
    var i := FirstCurrent(s);
    assert ServedAt(s, key, i);
  }

  lemma FirstCurrent(s: Lane) returns (i: nat)
    requires QueueIsOrdered(s) && s.queue != [] && s.queue[|s.queue| - 1].epoch == s.epoch
    ensures i < |s.queue| && s.queue[i].epoch == s.epoch
    ensures forall j :: 0 <= j < i ==> s.queue[j].epoch < s.epoch
  {
    i := 0;
    while s.queue[i].epoch != s.epoch
      invariant i < |s.queue|
      invariant forall j :: 0 <= j < i ==> s.queue[j].epoch < s.epoch
      decreases |s.queue| - i
    {
      i := i + 1;
    }
  }

  lemma RefusedRetryIsReached(s: Lane, key: Session) returns (n: nat)
    requires Inv(s) && !s.stopped && !s.unavailable && s.queue != [] && s.queue[0].epoch == s.epoch
    requires s.queue[0].phase.LeaseRefused? && s.queue[0].phase.error == RpcTimeout && key in s.queue[0].phase.captured
    ensures Reaches(s, key, n)
  {
    var captured := s.queue[0].phase.captured;
    var managed := ManagedKeys(captured);
    var t := ApplyFailure(s, managed, RpcTimeout, Managed, false);
    ApplyFailureFrame(s, managed, RpcTimeout, Managed, false);
    var u := ApplyFailure(t, captured.Keys - managed, RpcTimeout, Shared, false);
    ApplyFailureFrame(t, captured.Keys - managed, RpcTimeout, Shared, false);
    assert key in u.pending && u.pending[key].disposition == Retry;
    NextKeepsInv(s, RefusalHandled);
    assert Next(s, RefusalHandled) == SetPhase(u, Returned);
    var m := ReturnedRetryIsReached(SetPhase(u, Returned), key);
    StepBack(s, RefusalHandled, key, m);
    n := m + 1;
  }

  lemma RecoveringKeyIsReached(s: Lane, key: Session)
    requires Inv(s) && !s.stopped && !s.unavailable && s.queue != [] && s.queue[0].epoch == s.epoch
    requires s.queue[0].phase.Recovering? && key in s.pending && key in s.queue[0].phase.managed
    ensures Reaches(s, key, 1)
  {
    var restore := Batch({key}, {}, []);
    var ev := BatchReturned(Ok(restore), true);
    var t := FileBatch(s, restore);
    assert key in t.pending && t.pending[key].stage == Shared;
    assert key in SharedKeys(t, s.queue[0].phase.captured);
    StepBack(s, ev, key, 0);
  }

  lemma WakingKeyIsReached(s: Lane, key: Session) returns (n: nat)
    requires Inv(s) && !s.stopped && !s.unavailable && s.queue != [] && s.queue[0].epoch == s.epoch
    requires s.queue[0].phase.Waking? && key in s.queue[0].phase.shared
    ensures Reaches(s, key, n)
  {
    var ev := WakeReturned(Err(RpcTimeout), true);
    NextKeepsInv(s, ev);
    var t := Next(s, ev);
    var m := ReturnedRetryIsReached(t, key);
    StepBack(s, ev, key, m);
    n := m + 1;
  }

  lemma UnquietIsReached(s: Lane, key: Session) returns (n: nat)
    requires Inv(s) && !s.stopped && !s.unavailable && key in s.pending
    requires s.pending[key].disposition != Retry && !Quiet(s, key)
    ensures Reaches(s, key, n)
  {
    var i :| 0 <= i < |s.queue| && s.queue[i].epoch == s.epoch && !Leaves(s.queue[i], s, key);
    match s.queue[i].phase
    case LeaseRefused(_, _) => n := RefusedRetryIsReached(s, key);
    case Recovering(captured, managed) =>
      n := 1;
      if key in managed { RecoveringKeyIsReached(s, key); } else { SharedAttempted(s, captured, key); }
    case Waking(_, _) => n := WakingKeyIsReached(s, key);
    case Queued =>
      assert ServedAt(s, key, i);
      n := ServedIsReached(s, key);
    case AwaitingBarrier(_) =>
      assert ServedAt(s, key, i);
      n := ServedIsReached(s, key);
    case Returned => assert false;
  }

  /** A key parked in any state can be attempted again, with neither a republished endpoint nor a
      new failure of the key, exactly when its endpoint is available and a run of the current epoch
      was already bound to reach it. */
  lemma ParkedKeyIsReachedIff(s: Lane, key: Session)
    requires Inv(s) && key in s.pending && s.pending[key].disposition == Safety
    ensures (exists n :: Reaches(s, key, n)) <==> !s.unavailable && !Quiet(s, key)
  {
    if s.unavailable {
      forall n ensures !Reaches(s, key, n) { UnavailableIsUnreachable(s, key, n); }
    } else if Quiet(s, key) {
      forall n ensures !Reaches(s, key, n) { QuietIsUnreachable(s, key, n); }
    } else {
      var n := UnquietIsReached(s, key);
      assert Reaches(s, key, n);
    }
  }

  /** The other half of the story, on one run: `recordFailure` parks the key while the run that
      `endpointReady` queued has not begun, and that run then attempts the parked key. */
  lemma OutsideParkIsAttempted()
    ensures var parked := RecordFailure(EndpointReady(FRESH_LANE), 7, Permanent);
      parked.pending[7].disposition == Safety
      && Attempted(parked, Next(parked, RunBegins(Granted, true))) == {7}
  {
    var parked := RecordFailure(EndpointReady(FRESH_LANE), 7, Permanent);
    assert Targets(parked, All) == parked.pending;
    assert 7 in ManagedKeys(parked.pending);
    assert ManagedKeys(parked.pending) == {7};
  }
}

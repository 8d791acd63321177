/**
 The managed-session recovery owner (`createManagedSessionRecoveryOwner`).

 Every structure the owner keeps is keyed by endpoint and every event but `stop` names one
 endpoint, so the specification follows the share of the state that belongs to one endpoint, a
 `Lane`. The module `ManagedRecoveryOwner` holds that share in fields and changes it in place.

 Each `await` of the source is a `Phase` of the run that is suspended there.
 */
module ManagedRecovery {
  import opened Common
  import opened Runs

  datatype Disposition = Retry | Endpoint | Safety
  datatype Stage = Managed | Shared
  datatype Target = Target(disposition: Disposition, stage: Stage)
  type Session = nat

  /** The three classes of error that `managedRecoveryDisposition` tells apart. */
  datatype Failure = RpcTimeout | EndpointGone | OtherError
  datatype Verdict = RetryLater | WaitForEndpoint | Permanent

  function ManagedRecoveryDisposition(error: Failure, currentReadyLease: bool): (v: Verdict)
  {
    match error
    case RpcTimeout => RetryLater
    case EndpointGone => if currentReadyLease then RetryLater else WaitForEndpoint
    case OtherError => Permanent
  }

  function DispositionOf(v: Verdict): (d: Disposition)
  {
    match v
    case RetryLater => Retry
    case WaitForEndpoint => Endpoint
    case Permanent => Safety
  }

  datatype Selection = RetryOnly | All

  /** What `recover` hands back: restored and settled keys, then failures in report order. */
  datatype Batch = Batch(restored: set<Session>, settled: set<Session>, failures: seq<(Session, Verdict)>)

  datatype Phase =
    | Queued
    | AwaitingBarrier(barrier: nat)
    | LeaseRefused(captured: map<Session, Target>, error: Failure)
    | Recovering(captured: map<Session, Target>, managed: set<Session>)
    | Waking(captured: map<Session, Target>, shared: set<Session>)
    | Returned

  /** One entry of an endpoint's promise tail. `leased` is a run that brought its own lease. */
  datatype Job = Job(selection: Selection, epoch: nat, leased: bool, phase: Phase)

  datatype Timer = Timer(generation: nat, epoch: nat)

  datatype Lane = Lane(
    pending: map<Session, Target>,
    unavailable: bool,
    reported: bool,
    timer: Option<Timer>,
    timerGeneration: nat,
    epoch: nat,
    queue: seq<Job>,
    fallback: Option<nat>,
    openBarriers: set<nat>,
    nextBarrier: nat,
    stopped: bool)

  const FRESH_LANE := Lane(map[], false, false, None, 0, 0, [], None, {}, 0, false)

  // ---------------------------------------------------------------- helpers of the source

  predicate HasRetry(s: Lane)
  {
    exists k :: k in s.pending && s.pending[k].disposition == Retry
  }

  function Targets(s: Lane, selection: Selection): (m: map<Session, Target>)
  {
    map k | k in s.pending && (selection == All || s.pending[k].disposition == Retry) :: s.pending[k]
  }

  function ClearTimer(s: Lane): Lane
  {
    s.(timer := None, timerGeneration := s.timerGeneration + 1)
  }

  function AllWaiting(pending: map<Session, Target>): map<Session, Target>
  {
    map k | k in pending :: pending[k].(disposition := Endpoint)
  }

  function MarkEndpointWaiting(s: Lane): Lane
  {
    ClearTimer(s.(unavailable := true, pending := AllWaiting(s.pending)))
  }

  function SetAll(pending: map<Session, Target>, keys: set<Session>, target: Target): map<Session, Target>
  {
    pending + map k | k in keys :: target
  }

  function ApplyFailure(s: Lane, keys: set<Session>, error: Failure, stage: Stage, currentReadyLease: bool): Lane
  {
    var verdict := ManagedRecoveryDisposition(error, currentReadyLease);
    var parked := s.(pending := SetAll(s.pending, keys, Target(DispositionOf(verdict), stage)));
    if keys == {} || verdict == RetryLater then parked
    else if verdict == WaitForEndpoint then MarkEndpointWaiting(parked)
    else parked.(reported := true)
  }

  function Schedule(s: Lane): Lane
  {
    if s.stopped || s.unavailable || s.timer.Some? || !HasRetry(s) then s
    else s.(timer := Some(Timer(s.timerGeneration + 1, s.epoch)), timerGeneration := s.timerGeneration + 1)
  }

  predicate RunIsCurrent(s: Lane, epoch: nat, leaseCurrent: bool)
  {
    !s.stopped && s.epoch == epoch && leaseCurrent && !s.unavailable
  }

  // ---------------------------------------------------------------- entry points

  function RecordFailure(s: Lane, key: Session, verdict: Verdict): Lane
  {
    if s.stopped then s else
      var stage := if verdict != Permanent && key in s.pending then s.pending[key].stage else Managed;
      var t := s.(pending := s.pending[key := Target(DispositionOf(verdict), stage)]);
      match verdict
      case WaitForEndpoint => MarkEndpointWaiting(t)
      case RetryLater => Schedule(t)
      case Permanent => if HasRetry(t) then t else ClearTimer(t)
  }

  function Enqueue(s: Lane, job: Job): Lane
  {
    if s.stopped then s else s.(queue := s.queue + [job])
  }

  function EndpointReady(s: Lane): Lane
  {
    var t := ClearTimer(s.(epoch := s.epoch + 1, unavailable := false));
    Enqueue(t, Job(All, t.epoch, true, Queued))
  }

  function EndpointUnavailable(s: Lane): Lane
  {
    if s.stopped then s else MarkEndpointWaiting(s.(epoch := s.epoch + 1))
  }

  function Stop(s: Lane): Lane
  {
    if s.stopped then s
    else if s.timer.Some? then ClearTimer(s.(stopped := true, pending := map[]))
    else s.(stopped := true, pending := map[])
  }

  /** The timeout callback armed under `generation` and `epoch`; the platform may run any of them. */
  function TimerFires(s: Lane, generation: nat, epoch: nat): Lane
  {
    if s.stopped || s.unavailable || s.timer != Some(Timer(generation, epoch)) || s.epoch != epoch then s
    else Enqueue(s.(timer := None), Job(RetryOnly, epoch, false, Queued))
  }

  // ---------------------------------------------------------------- one run, segment by segment

  function SetPhase(s: Lane, phase: Phase): Lane
    requires s.queue != []
  {
    s.(queue := [s.queue[0].(phase := phase)] + s.queue[1..])
  }

  function Pop(s: Lane): Lane
    requires s.queue != []
  {
    s.(queue := s.queue[1..])
  }

  /** How `withReadyWorkLease` answers a run that brought no lease. */
  datatype LeaseAnswer = Granted | Refused(error: Failure)

  /** The head of the tail begins: it first waits out an independent shared wake. */
  function BeginRun(s: Lane, answer: LeaseAnswer, leaseCurrent: bool): Lane
    requires s.queue != []
  {
    if s.stopped then Pop(s)
    else if s.fallback.Some? then SetPhase(s, AwaitingBarrier(s.fallback.value))
    else SelectTargets(s, answer, leaseCurrent)
  }

  function SelectTargets(s: Lane, answer: LeaseAnswer, leaseCurrent: bool): Lane
    requires s.queue != []
  {
    var job := s.queue[0];
    if s.stopped || s.epoch != job.epoch then Pop(s) else
    var captured := Targets(s, job.selection);
    if captured == map[] then Pop(s.(reported := false))
    else if !job.leased && answer.Refused? then SetPhase(s, LeaseRefused(captured, answer.error))
    else Recover(s, captured, leaseCurrent)
  }

  function ManagedKeys(captured: map<Session, Target>): set<Session>
  {
    set k | k in captured && captured[k].stage == Managed
  }

  function Recover(s: Lane, captured: map<Session, Target>, leaseCurrent: bool): Lane
    requires s.queue != []
  {
    if !RunIsCurrent(s, s.queue[0].epoch, leaseCurrent) then SetPhase(s, Returned)
    else if ManagedKeys(captured) != {} then SetPhase(s, Recovering(captured, ManagedKeys(captured)))
    else WakeIfShared(s, captured, leaseCurrent)
  }

  function SharedKeys(s: Lane, captured: map<Session, Target>): set<Session>
  {
    set k | k in captured && k in s.pending && s.pending[k].stage == Shared
  }

  function WakeIfShared(s: Lane, captured: map<Session, Target>, leaseCurrent: bool): Lane
    requires s.queue != []
  {
    var epoch := s.queue[0].epoch;
    if !RunIsCurrent(s, epoch, leaseCurrent) then SetPhase(s, Returned)
    else if SharedKeys(s, captured) != {} then SetPhase(s, Waking(captured, SharedKeys(s, captured)))
    else SetPhase(s, Returned)
  }

  /** `withReadyWorkLease` threw before it ran the recovery; the catch re-checks the epoch. */
  function LeaseRefusalHandled(s: Lane): Lane
    requires s.queue != [] && s.queue[0].phase.LeaseRefused?
  {
    var job := s.queue[0];
    var captured := job.phase.captured;
    if s.stopped || s.epoch != job.epoch then SetPhase(s, Returned) else
    var t := ApplyFailure(s, ManagedKeys(captured), job.phase.error, Managed, false);
    var u := ApplyFailure(t, captured.Keys - ManagedKeys(captured), job.phase.error, Shared, false);
    SetPhase(u, Returned)
  }

  function RestoreKeys(pending: map<Session, Target>, restored: set<Session>): map<Session, Target>
  {
    map k | k in pending :: if k in restored then pending[k].(stage := Shared) else pending[k]
  }

  function RecordFailures(pending: map<Session, Target>, failures: seq<(Session, Verdict)>): map<Session, Target>
  {
    if failures == [] then pending
    else
      var last := failures[|failures| - 1];
      RecordFailures(pending, failures[..|failures| - 1])[last.0 := Target(DispositionOf(last.1), Managed)]
  }

  predicate Reports(failures: seq<(Session, Verdict)>, verdict: Verdict)
  {
    exists i :: 0 <= i < |failures| && failures[i].1 == verdict
  }

  predicate OnlyNames(batch: Batch, keys: set<Session>)
  {
    batch.restored <= keys && batch.settled <= keys
    && forall i :: 0 <= i < |batch.failures| ==> batch.failures[i].0 in keys
  }

  function FileBatch(s: Lane, batch: Batch): Lane
  {
    var filed := RecordFailures(RestoreKeys(s.pending, batch.restored) - batch.settled, batch.failures);
    var t := s.(pending := filed, reported := s.reported || Reports(batch.failures, Permanent));
    if Reports(batch.failures, WaitForEndpoint) then MarkEndpointWaiting(t) else t
  }

  datatype Answer<T> = Ok(value: T) | Err(error: Failure)

  function BatchReturns(s: Lane, answer: Answer<Batch>, leaseCurrent: bool): Lane
    requires s.queue != [] && s.queue[0].phase.Recovering?
  {
    var epoch := s.queue[0].epoch;
    var phase := s.queue[0].phase;
    var current := RunIsCurrent(s, epoch, leaseCurrent);
    var t :=
      if !current then s
      else if answer.Err? then ApplyFailure(s, phase.managed, answer.error, Managed, true)
      else if !OnlyNames(answer.value, phase.managed) then ApplyFailure(s, phase.managed, OtherError, Managed, true)
      else FileBatch(s, answer.value);
    if current && answer.Ok? && OnlyNames(answer.value, phase.managed) then WakeIfShared(t, phase.captured, leaseCurrent)
    else SetPhase(t, Returned)
  }

  function WakeReturns(s: Lane, answer: Answer<()>, leaseCurrent: bool): Lane
    requires s.queue != [] && s.queue[0].phase.Waking?
  {
    var epoch := s.queue[0].epoch;
    var shared := s.queue[0].phase.shared;
    if !RunIsCurrent(s, epoch, leaseCurrent) then
      SetPhase(s, Returned)
    else if answer.Err? then
      SetPhase(ApplyFailure(s, shared, answer.error, Shared, true), Returned)
    else SetPhase(s.(pending := s.pending - shared, reported := false), Returned)
  }

  /** The last lines of a run: re-arm the retry timer, then leave the tail. */
  function RunReturns(s: Lane): Lane
    requires s.queue != [] && s.queue[0].phase.Returned?
  {
    Pop(Schedule(s))
  }

  /** `completeIndependentSharedWake` publishes a barrier that later runs wait for. */
  function BeginIndependentWake(s: Lane): Lane
  {
    s.(fallback := Some(s.nextBarrier), openBarriers := s.openBarriers + {s.nextBarrier}, nextBarrier := s.nextBarrier + 1)
  }

  function EndIndependentWake(s: Lane, barrier: nat): Lane
  {
    s.(openBarriers := s.openBarriers - {barrier}, fallback := if s.fallback == Some(barrier) then None else s.fallback)
  }

  // ---------------------------------------------------------------- every interleaving

  datatype Event =
    | FailureRecorded(key: Session, verdict: Verdict)
    | Ready
    | Unavailable
    | Stopped
    | TimerFired(generation: nat, timerEpoch: nat)
    | RunBegins(lease: LeaseAnswer, leaseCurrent: bool)
    | BarrierReleased(lease: LeaseAnswer, leaseCurrent: bool)
    | RefusalHandled
    | BatchReturned(batch: Answer<Batch>, leaseCurrent: bool)
    | WakeReturned(wake: Answer<()>, leaseCurrent: bool)
    | RunReturned
    | IndependentWakeBegins
    | IndependentWakeEnds(barrier: nat)

  predicate Enabled(s: Lane, ev: Event)
  {
    match ev
    case RunBegins(_, _) => s.queue != [] && s.queue[0].phase.Queued?
    case BarrierReleased(_, _) =>
      s.queue != [] && s.queue[0].phase.AwaitingBarrier? && s.queue[0].phase.barrier !in s.openBarriers
    case RefusalHandled => s.queue != [] && s.queue[0].phase.LeaseRefused?
    case BatchReturned(_, _) => s.queue != [] && s.queue[0].phase.Recovering?
    case WakeReturned(_, _) => s.queue != [] && s.queue[0].phase.Waking?
    case RunReturned => s.queue != [] && s.queue[0].phase.Returned?
    case _ => true
  }

  function Next(s: Lane, ev: Event): Lane
    requires Enabled(s, ev)
  {
    match ev
    case FailureRecorded(key, verdict) => RecordFailure(s, key, verdict)
    case Ready => EndpointReady(s)
    case Unavailable => EndpointUnavailable(s)
    case Stopped => Stop(s)
    case TimerFired(generation, epoch) => TimerFires(s, generation, epoch)
    case RunBegins(lease, current) => BeginRun(s, lease, current)
    case BarrierReleased(lease, current) => SelectTargets(s, lease, current)
    case RefusalHandled => LeaseRefusalHandled(s)
    case BatchReturned(batch, current) => BatchReturns(s, batch, current)
    case WakeReturned(wake, current) => WakeReturns(s, wake, current)
    case RunReturned => RunReturns(s)
    case IndependentWakeBegins => BeginIndependentWake(s)
    case IndependentWakeEnds(barrier) => EndIndependentWake(s, barrier)
  }

  ghost predicate Init(s: Lane)
  {
    s == FRESH_LANE
  }

  /** `states` is a run of the lane: it begins fresh and each event takes one state to the next. */
  ghost predicate Trace(states: seq<Lane>, events: seq<Event>)
  {
    IsRun(Init, Step, states, events)
  }

  ghost predicate Step(s: Lane, ev: Event, t: Lane)
  {
    Enabled(s, ev) && t == Next(s, ev)
  }

  /** The keys an event hands to `recover` or to `wakeShared`, judged by the phase it leads to. */
  function Attempted(s: Lane, t: Lane): set<Session>
  {
    if t.queue == [] || (s.queue != [] && t.queue[0].phase == s.queue[0].phase) then {}
    else match t.queue[0].phase
      case Recovering(_, managed) => managed
      case Waking(_, shared) => shared
      case _ => {}
  }

  // ---------------------------------------------------------------- invariant

  predicate TimerIsCurrent(s: Lane)
  {
    s.timer.Some? ==>
      s.timer.value == Timer(s.timerGeneration, s.epoch) && !s.unavailable && !s.stopped
  }

  predicate HasCurrentRun(s: Lane)
  {
    exists i :: 0 <= i < |s.queue| && s.queue[i].epoch == s.epoch
  }

  predicate RetryIsCovered(s: Lane)
  {
    !s.stopped && !s.unavailable && HasRetry(s) ==> s.timer.Some? || HasCurrentRun(s)
  }

  predicate QueueIsOrdered(s: Lane)
  {
    (forall i :: 0 <= i < |s.queue| ==> s.queue[i].epoch <= s.epoch)
    && (forall i :: 0 < i < |s.queue| ==> s.queue[i].phase == Queued)
    && (forall i, j :: 0 <= i < j < |s.queue| && s.queue[j].selection == All ==> s.queue[i].epoch < s.queue[j].epoch)
  }

  predicate CaptureIsSound(s: Lane)
  {
    s.queue != [] ==>
      match s.queue[0].phase
      case Recovering(captured, managed) => managed <= captured.Keys
      case Waking(captured, shared) => shared <= captured.Keys
      case _ => true
  }

  predicate Inv(s: Lane)
  {
    TimerIsCurrent(s) && RetryIsCovered(s) && QueueIsOrdered(s) && CaptureIsSound(s)
    && (s.stopped ==> s.pending == map[])
  }

  lemma InitKeepsInv()
    ensures forall s :: Init(s) ==> Inv(s)
  {
  }

  /** The rest of the queue, and the run at its head, keep their order when the head changes phase. */
  lemma PhaseKeepsOrder(s: Lane, t: Lane, phase: Phase)
    requires s.queue != [] && QueueIsOrdered(s) && t.queue == s.queue && t.epoch == s.epoch
    ensures QueueIsOrdered(SetPhase(t, phase))
    ensures HasCurrentRun(SetPhase(t, phase)) == HasCurrentRun(s)
  {
    var u := SetPhase(t, phase);
    assert |u.queue| == |s.queue|;
    assert forall i :: 0 <= i < |s.queue| ==> u.queue[i].epoch == s.queue[i].epoch && u.queue[i].selection == s.queue[i].selection;
    if HasCurrentRun(s) {
      var i :| 0 <= i < |s.queue| && s.queue[i].epoch == s.epoch;
      assert u.queue[i].epoch == u.epoch;
    }
  }

  lemma PopKeepsOrder(s: Lane)
    requires s.queue != [] && QueueIsOrdered(s)
    ensures QueueIsOrdered(Pop(s)) && CaptureIsSound(Pop(s))
    ensures HasCurrentRun(s) ==> HasCurrentRun(Pop(s)) || s.queue[0].epoch == s.epoch
  {
    var t := Pop(s);
    assert forall i :: 0 <= i < |t.queue| ==> t.queue[i] == s.queue[i + 1];
    if HasCurrentRun(s) && s.queue[0].epoch != s.epoch {
      var i :| 0 <= i < |s.queue| && s.queue[i].epoch == s.epoch;
      assert t.queue[i - 1].epoch == t.epoch;
    }
  }

  lemma EnqueueKeepsOrder(s: Lane, job: Job)
    requires QueueIsOrdered(s) && CaptureIsSound(s) && job.phase == Queued && job.epoch == s.epoch
    requires job.selection == All ==> forall i :: 0 <= i < |s.queue| ==> s.queue[i].epoch < s.epoch
    ensures QueueIsOrdered(Enqueue(s, job)) && CaptureIsSound(Enqueue(s, job))
    ensures !s.stopped ==> HasCurrentRun(Enqueue(s, job))
  {
    if !s.stopped {
      var t := Enqueue(s, job);
      assert t.queue[|s.queue|] == job;
      assert forall i :: 0 <= i < |s.queue| ==> t.queue[i] == s.queue[i];
    }
  }

  lemma RecordFailureKeepsInv(s: Lane, key: Session, verdict: Verdict)
    requires Inv(s)
    ensures Inv(RecordFailure(s, key, verdict))
  {
  }

  lemma EndpointReadyKeepsInv(s: Lane)
    requires Inv(s)
    ensures Inv(EndpointReady(s))
  {
    var t := ClearTimer(s.(epoch := s.epoch + 1, unavailable := false));
    EnqueueKeepsOrder(t, Job(All, t.epoch, true, Queued));
  }

  lemma EndpointUnavailableKeepsInv(s: Lane)
    requires Inv(s)
    ensures Inv(EndpointUnavailable(s)) && Inv(Stop(s))
  {
  }

  lemma TimerFiresKeepsInv(s: Lane, generation: nat, epoch: nat)
    requires Inv(s)
    ensures Inv(TimerFires(s, generation, epoch))
  {
    EnqueueKeepsOrder(s.(timer := None), Job(RetryOnly, s.epoch, false, Queued));
  }

  lemma ScheduleKeepsInv(s: Lane)
    requires TimerIsCurrent(s)
    ensures TimerIsCurrent(Schedule(s))
    ensures !s.stopped && !s.unavailable && HasRetry(s) ==> Schedule(s).timer.Some?
  {
  }

  lemma RunReturnsKeepsInv(s: Lane)
    requires Inv(s) && s.queue != [] && s.queue[0].phase.Returned?
    ensures Inv(RunReturns(s))
  {
    ScheduleKeepsInv(s);
    PopKeepsOrder(Schedule(s));
  }

  /** What a run may do to its lane between two awaits without losing a retry. */
  lemma HeadMoveKeepsInv(s: Lane, t: Lane, phase: Phase)
    requires Inv(s) && s.queue != []
    requires t.queue == s.queue && t.epoch == s.epoch && t.stopped == s.stopped
    requires TimerIsCurrent(t) && (s.stopped ==> t.pending == map[])
    requires HasRetry(t) && !t.unavailable && !t.stopped ==>
      s.queue[0].epoch == s.epoch || (t.timer.Some? == s.timer.Some? && HasRetry(s) && !s.unavailable)
    requires CaptureIsSound(SetPhase(t, phase))
    ensures Inv(SetPhase(t, phase))
  {
    PhaseKeepsOrder(s, t, phase);
    if s.queue[0].epoch == s.epoch { assert SetPhase(t, phase).queue[0].epoch == t.epoch; }
  }

  lemma WakeIfSharedKeepsInv(s: Lane, captured: map<Session, Target>, leaseCurrent: bool)
    requires Inv(s) && s.queue != []
    ensures Inv(WakeIfShared(s, captured, leaseCurrent))
  {
    HeadMoveKeepsInv(s, s, Returned);
    HeadMoveKeepsInv(s, s, Waking(captured, SharedKeys(s, captured)));
  }

  lemma NothingSelectedMeansNoRetry(s: Lane, selection: Selection)
    ensures HasRetry(s) ==> Targets(s, selection) != map[]
  {
    if HasRetry(s) {
      var k :| k in s.pending && s.pending[k].disposition == Retry;
      assert k in Targets(s, selection);
    }
  }

  lemma RecoverKeepsInv(s: Lane, captured: map<Session, Target>, leaseCurrent: bool)
    requires Inv(s) && s.queue != []
    ensures Inv(Recover(s, captured, leaseCurrent))
  {
    HeadMoveKeepsInv(s, s, Returned);
    HeadMoveKeepsInv(s, s, Recovering(captured, ManagedKeys(captured)));
    WakeIfSharedKeepsInv(s, captured, leaseCurrent);
  }

  lemma SelectTargetsKeepsInv(s: Lane, answer: LeaseAnswer, leaseCurrent: bool)
    requires Inv(s) && s.queue != []
    ensures Inv(SelectTargets(s, answer, leaseCurrent))
  {
    var captured := Targets(s, s.queue[0].selection);
    if s.stopped || s.epoch != s.queue[0].epoch {
      PopKeepsOrder(s);
    } else if captured == map[] {
      NothingSelectedMeansNoRetry(s, s.queue[0].selection);
      PopKeepsOrder(s.(reported := false));
    } else if !s.queue[0].leased && answer.Refused? {
      HeadMoveKeepsInv(s, s, LeaseRefused(captured, answer.error));
    } else {
      RecoverKeepsInv(s, captured, leaseCurrent);
    }
  }

  lemma BeginRunKeepsInv(s: Lane, answer: LeaseAnswer, leaseCurrent: bool)
    requires Inv(s) && s.queue != []
    ensures Inv(BeginRun(s, answer, leaseCurrent))
  {
    PopKeepsOrder(s);
    if s.fallback.Some? { HeadMoveKeepsInv(s, s, AwaitingBarrier(s.fallback.value)); }
    SelectTargetsKeepsInv(s, answer, leaseCurrent);
  }

  lemma ApplyFailureFrame(s: Lane, keys: set<Session>, error: Failure, stage: Stage, ready: bool)
    requires TimerIsCurrent(s)
    ensures var t := ApplyFailure(s, keys, error, stage, ready);
      TimerIsCurrent(t) && t.queue == s.queue && t.epoch == s.epoch && t.stopped == s.stopped
      && t.pending.Keys == s.pending.Keys + keys && (s.unavailable ==> t.unavailable)
  {
  }

  lemma LeaseRefusalKeepsInv(s: Lane)
    requires Inv(s) && s.queue != [] && s.queue[0].phase.LeaseRefused?
    ensures Inv(LeaseRefusalHandled(s))
  {
    var captured := s.queue[0].phase.captured;
    var error := s.queue[0].phase.error;
    var t := ApplyFailure(s, ManagedKeys(captured), error, Managed, false);
    var u := ApplyFailure(t, captured.Keys - ManagedKeys(captured), error, Shared, false);
    if s.stopped || s.epoch != s.queue[0].epoch {
      HeadMoveKeepsInv(s, s, Returned);
    } else {
      ApplyFailureFrame(s, ManagedKeys(captured), error, Managed, false);
      ApplyFailureFrame(t, captured.Keys - ManagedKeys(captured), error, Shared, false);
      HeadMoveKeepsInv(s, u, Returned);
      assert LeaseRefusalHandled(s) == SetPhase(u, Returned);
    }
  }

  lemma BatchReturnsKeepsInv(s: Lane, answer: Answer<Batch>, leaseCurrent: bool)
    requires Inv(s) && s.queue != [] && s.queue[0].phase.Recovering?
    ensures Inv(BatchReturns(s, answer, leaseCurrent))
  {
    var managed := s.queue[0].phase.managed;
    HeadMoveKeepsInv(s, s, Returned);
    if RunIsCurrent(s, s.queue[0].epoch, leaseCurrent) {
      if answer.Err? {
        HeadMoveKeepsInv(s, ApplyFailure(s, managed, answer.error, Managed, true), Returned);
      } else if !OnlyNames(answer.value, managed) {
        HeadMoveKeepsInv(s, ApplyFailure(s, managed, OtherError, Managed, true), Returned);
      } else {
        var t := FileBatch(s, answer.value);
        assert HasCurrentRun(t) by { assert t.queue[0].epoch == t.epoch; }
        WakeIfSharedKeepsInv(t, s.queue[0].phase.captured, leaseCurrent);
      }
    }
  }

  lemma WakeReturnsKeepsInv(s: Lane, answer: Answer<()>, leaseCurrent: bool)
    requires Inv(s) && s.queue != [] && s.queue[0].phase.Waking?
    ensures Inv(WakeReturns(s, answer, leaseCurrent))
  {
    var shared := s.queue[0].phase.shared;
    HeadMoveKeepsInv(s, s, Returned);
    if RunIsCurrent(s, s.queue[0].epoch, leaseCurrent) {
      if answer.Err? { HeadMoveKeepsInv(s, ApplyFailure(s, shared, answer.error, Shared, true), Returned); }
      HeadMoveKeepsInv(s, s.(pending := s.pending - shared, reported := false), Returned);
    }
  }

  lemma NextKeepsInv(s: Lane, ev: Event)
    requires Inv(s) && Enabled(s, ev)
    ensures Inv(Next(s, ev))
  {
    match ev
    case FailureRecorded(key, verdict) => RecordFailureKeepsInv(s, key, verdict);
    case Ready => EndpointReadyKeepsInv(s);
    case Unavailable => EndpointUnavailableKeepsInv(s);
    case Stopped => EndpointUnavailableKeepsInv(s);
    case TimerFired(generation, epoch) => TimerFiresKeepsInv(s, generation, epoch);
    case RunBegins(lease, current) => BeginRunKeepsInv(s, lease, current);
    case BarrierReleased(lease, current) => SelectTargetsKeepsInv(s, lease, current);
    case RefusalHandled => LeaseRefusalKeepsInv(s);
    case BatchReturned(batch, current) => BatchReturnsKeepsInv(s, batch, current);
    case WakeReturned(wake, current) => WakeReturnsKeepsInv(s, wake, current);
    case RunReturned => RunReturnsKeepsInv(s);
    case IndependentWakeBegins =>
    case IndependentWakeEnds(_) =>
  }

  lemma StepKeepsInv()
    ensures forall s: Lane, ev: Event, t: Lane :: Inv(s) && Step(s, ev, t) ==> Inv(t)
  {
    forall s: Lane, ev: Event, t: Lane | Inv(s) && Step(s, ev, t)
      ensures Inv(t)
    {
      NextKeepsInv(s, ev);
    }
  }

  lemma TraceKeepsInv(states: seq<Lane>, events: seq<Event>, i: nat)
    requires Trace(states, events) && i < |states|
    ensures Inv(states[i])
  {
    InitKeepsInv();
    StepKeepsInv();
    HoldsThroughout(Init, Step, Inv, states, events, i);
  }

  // ---------------------------------------------------------------- what every run guarantees

  /** Any run: an armed timer belongs to the current epoch and generation of an available lane. */
  lemma ArmedTimerIsCurrent(states: seq<Lane>, events: seq<Event>, i: nat)
    requires Trace(states, events) && i < |states| && states[i].timer.Some?
    ensures states[i].timer.value.epoch == states[i].epoch
    ensures states[i].timer.value.generation == states[i].timerGeneration
    ensures !states[i].unavailable && !states[i].stopped
  {
    TraceKeepsInv(states, events, i);
  }

  /** Any run: a retry of an available endpoint has a timer, or a run of the current epoch, to serve it. */
  lemma RetryIsNeverLost(states: seq<Lane>, events: seq<Event>, i: nat, key: Session)
    requires Trace(states, events) && i < |states|
    requires key in states[i].pending && states[i].pending[key].disposition == Retry && !states[i].unavailable
    ensures states[i].timer.Some?
      || exists j :: 0 <= j < |states[i].queue| && states[i].queue[j].epoch == states[i].epoch
  {
    TraceKeepsInv(states, events, i);
  }

  /** The lease flag that an event carries, for the events that resume a run. */
  predicate ResumesWithLease(ev: Event)
  {
    match ev
    case RunBegins(_, current) => current
    case BarrierReleased(_, current) => current
    case BatchReturned(_, current) => current
    case WakeReturned(_, current) => current
    case _ => false
  }

  lemma RecordFailuresKeepsKeys(pending: map<Session, Target>, failures: seq<(Session, Verdict)>)
    ensures pending.Keys <= RecordFailures(pending, failures).Keys
  {
    if failures != [] { RecordFailuresKeepsKeys(pending, failures[..|failures| - 1]); }
  }

  lemma SelectionKeepsPending(s: Lane, answer: LeaseAnswer, leaseCurrent: bool)
    requires s.queue != []
    ensures SelectTargets(s, answer, leaseCurrent).pending == s.pending
    ensures BeginRun(s, answer, leaseCurrent).pending == s.pending
  {
  }

  lemma {:induction false} RecordFailuresAddsOnlyReported(pending: map<Session, Target>, failures: seq<(Session, Verdict)>, key: Session)
    ensures key in RecordFailures(pending, failures) <==> key in pending || Names(failures, key)
  {
    if failures != [] {
      var last := |failures| - 1;
      RecordFailuresAddsOnlyReported(pending, failures[..last], key);
      if Names(failures[..last], key) {
        var i :| 0 <= i < last && failures[..last][i].0 == key;
        assert failures[i].0 == key;
      }
    }
  }

  predicate Names(failures: seq<(Session, Verdict)>, key: Session)
  {
    exists i :: 0 <= i < |failures| && failures[i].0 == key
  }

  /** The batch answer that drops `key`: it settles it, and reports no failure of it beside that. */
  predicate Settles(s: Lane, answer: Answer<Batch>, leaseCurrent: bool, key: Session)
    requires s.queue != [] && s.queue[0].phase.Recovering?
  {
    leaseCurrent && !s.stopped && !s.unavailable && s.queue[0].epoch == s.epoch
    && answer.Ok? && answer.value.restored <= s.queue[0].phase.managed && answer.value.settled <= s.queue[0].phase.managed
    && (forall i :: 0 <= i < |answer.value.failures| ==> answer.value.failures[i].0 in s.queue[0].phase.managed)
    && key in answer.value.settled && !Names(answer.value.failures, key)
  }

  lemma BatchDropsSettled(s: Lane, answer: Answer<Batch>, leaseCurrent: bool, key: Session)
    requires s.queue != [] && s.queue[0].phase.Recovering? && key in s.pending
    ensures key !in BatchReturns(s, answer, leaseCurrent).pending <==> Settles(s, answer, leaseCurrent, key)
  {
    if answer.Ok? {
      var batch := answer.value;
      RecordFailuresAddsOnlyReported(RestoreKeys(s.pending, batch.restored) - batch.settled, batch.failures, key);
    }
  }

  lemma RefusalKeepsKeys(s: Lane)
    requires Inv(s) && s.queue != [] && s.queue[0].phase.LeaseRefused?
    ensures s.pending.Keys <= LeaseRefusalHandled(s).pending.Keys
  {
    var captured := s.queue[0].phase.captured;
    ApplyFailureFrame(s, ManagedKeys(captured), s.queue[0].phase.error, Managed, false);
    var t := ApplyFailure(s, ManagedKeys(captured), s.queue[0].phase.error, Managed, false);
    ApplyFailureFrame(t, captured.Keys - ManagedKeys(captured), s.queue[0].phase.error, Shared, false);
  }

  /** A key is dropped by `stop`, and otherwise exactly when a run of the current epoch whose lease still
      holds got it settled, or woke its shared endpoint. */
  lemma KeyLeavesIff(s: Lane, ev: Event, key: Session)
    requires Inv(s) && Enabled(s, ev) && key in s.pending
    ensures key !in Next(s, ev).pending <==>
      ev == Stopped
      || (ev.BatchReturned? && Settles(s, ev.batch, ev.leaseCurrent, key))
      || (ev.WakeReturned? && ev.wake.Ok? && key in s.queue[0].phase.shared
          && ev.leaseCurrent && !s.stopped && !s.unavailable && s.queue[0].epoch == s.epoch)
  {
    match ev
    case RunBegins(lease, current) => SelectionKeepsPending(s, lease, current);
    case BarrierReleased(lease, current) => SelectionKeepsPending(s, lease, current);
    case BatchReturned(batch, current) => BatchDropsSettled(s, batch, current, key);
    case RefusalHandled => RefusalKeepsKeys(s);
    case _ =>
  }

  lemma QueueEventsAttemptNothing(s: Lane, ev: Event)
    requires Inv(s) && Enabled(s, ev) && !ResumesWithLease(ev)
    requires !ev.RunBegins? && !ev.BarrierReleased? && !ev.BatchReturned? && !ev.WakeReturned? && !ev.RefusalHandled?
    ensures Attempted(s, Next(s, ev)) == {}
  {
    if ev.RunReturned? && Next(s, ev).queue != [] { assert Next(s, ev).queue[0] == s.queue[1]; }
  }

  lemma RunEventsAttemptOnlyWhenCurrent(s: Lane, lease: LeaseAnswer, leaseCurrent: bool)
    requires Inv(s) && s.queue != [] && (s.queue[0].phase.Queued? || s.queue[0].phase.AwaitingBarrier?)
    ensures Attempted(s, SelectTargets(s, lease, leaseCurrent)) != {} ==>
      RunIsCurrent(s, s.queue[0].epoch, leaseCurrent)
    ensures Attempted(s, BeginRun(s, lease, leaseCurrent)) != {} ==>
      RunIsCurrent(s, s.queue[0].epoch, leaseCurrent)
  {
    assert |s.queue| > 1 ==> Pop(s).queue[0] == s.queue[1];
  }

  lemma BatchAttemptsOnlyWhenCurrent(s: Lane, answer: Answer<Batch>, leaseCurrent: bool)
    requires s.queue != [] && s.queue[0].phase.Recovering?
    requires Attempted(s, BatchReturns(s, answer, leaseCurrent)) != {}
    ensures RunIsCurrent(s, s.queue[0].epoch, leaseCurrent)
    ensures !BatchReturns(s, answer, leaseCurrent).unavailable
  {
  }

  /** Every recovery call is made by a run of the current epoch, on a held lease, for an available endpoint. */
  lemma AttemptsAreNeverStale(s: Lane, ev: Event, key: Session)
    requires Inv(s) && Enabled(s, ev) && key in Attempted(s, Next(s, ev))
    ensures ResumesWithLease(ev) && s.queue != [] && s.queue[0].epoch == s.epoch && !s.stopped && !s.unavailable
  {
    match ev
    case RunBegins(lease, current) => RunEventsAttemptOnlyWhenCurrent(s, lease, current);
    case BarrierReleased(lease, current) => RunEventsAttemptOnlyWhenCurrent(s, lease, current);
    case BatchReturned(batch, current) => BatchAttemptsOnlyWhenCurrent(s, batch, current);
    case WakeReturned(_, _) =>
    case RefusalHandled =>
    case _ => QueueEventsAttemptNothing(s, ev);
  }
}

/**
 The managed-session recovery owner in its own imperative form. The source's maps are all keyed by
 endpoint, so one object holds what they keep for one endpoint; its fields carry the source's
 names and are changed in place. `View()` is the lane of `ManagedRecovery`, and every method is
 proved to take exactly the step specified there.
 */
module ManagedRecoveryOwner {
  import opened Common
  import opened ManagedRecovery

  class EndpointRecoveryOwner {
    var pending: map<Session, Target>
    var unavailable: bool
    var safetyReported: bool
    var timer: Option<Timer>
    var timerGeneration: nat
    var endpointEpoch: nat
    var tail: seq<Job>
    var fallbackWake: Option<nat>
    var openBarriers: set<nat>
    var nextBarrier: nat
    var stopped: bool

    function View(): Lane
      reads this
    {
      Lane(pending, unavailable, safetyReported, timer, timerGeneration, endpointEpoch, tail,
           fallbackWake, openBarriers, nextBarrier, stopped)
    }

    constructor ()
      ensures View() == FRESH_LANE
    {
      pending, unavailable, safetyReported, timer, timerGeneration := map[], false, false, None, 0;
      endpointEpoch, tail, fallbackWake, openBarriers, nextBarrier, stopped := 0, [], None, {}, 0, false;
    }

    method ClearRetryTimer()
      modifies this`timer, this`timerGeneration
      ensures View() == ClearTimer(old(View()))
    {
      timerGeneration := timerGeneration + 1;
      timer := None;
    }

    method MarkWaiting()
      modifies this`unavailable, this`pending, this`timer, this`timerGeneration
      ensures View() == MarkEndpointWaiting(old(View()))
    {
      unavailable := true;
      var todo := pending.Keys;
      while todo != {}
        invariant todo <= pending.Keys == old(pending.Keys)
        invariant View() == old(View()).(unavailable := true, pending := pending)
        invariant forall k :: k in pending ==>
          pending[k] == if k in todo then old(pending[k]) else old(pending[k]).(disposition := Endpoint)
        decreases todo
      {
        var key :| key in todo;
        pending := pending[key := pending[key].(disposition := Endpoint)];
        todo := todo - {key};
      }
      assert pending == AllWaiting(old(pending));
      ClearRetryTimer();
    }

    method ScheduleRetry()
      modifies this`timer, this`timerGeneration
      ensures View() == Schedule(old(View()))
    {
      if stopped || unavailable || timer.Some? || !HasRetry(View()) { return; }
      timerGeneration := timerGeneration + 1;
      timer := Some(Timer(timerGeneration, endpointEpoch));
    }

    method Push(job: Job)
      modifies this`tail
      ensures View() == Enqueue(old(View()), job)
    {
      if stopped { return; }
      tail := tail + [job];
    }

    // -------------------------------------------------------------- entry points

    method RecordFailureOf(key: Session, verdict: Verdict)
      modifies this
      ensures View() == RecordFailure(old(View()), key, verdict)
    {
      if stopped { return; }
      if verdict != Permanent {
        var stage := if key in pending then pending[key].stage else Managed;
        pending := pending[key := Target(DispositionOf(verdict), stage)];
      } else {
        pending := pending[key := Target(Safety, Managed)];
      }
      if verdict == WaitForEndpoint {
        MarkWaiting();
      } else if verdict == RetryLater {
        ScheduleRetry();
      } else if !HasRetry(View()) {
        ClearRetryTimer();
      }
    }

    method PublishReady()
      modifies this
      ensures View() == EndpointReady(old(View()))
    {
      endpointEpoch := endpointEpoch + 1;
      unavailable := false;
      ClearRetryTimer();
      Push(Job(All, endpointEpoch, true, Queued));
    }

    method PublishUnavailable()
      modifies this
      ensures View() == EndpointUnavailable(old(View()))
    {
      if stopped { return; }
      endpointEpoch := endpointEpoch + 1;
      MarkWaiting();
    }

    method StopRecovery()
      modifies this
      ensures View() == Stop(old(View()))
    {
      if stopped { return; }
      stopped := true;
      pending := map[];
      if timer.Some? { ClearRetryTimer(); }
    }

    method TimeoutElapses(generation: nat, epoch: nat)
      modifies this
      ensures View() == TimerFires(old(View()), generation, epoch)
    {
      if stopped || unavailable || timer != Some(Timer(generation, epoch)) || endpointEpoch != epoch { return; }
      timer := None;
      Push(Job(RetryOnly, epoch, false, Queued));
    }

    // -------------------------------------------------------------- one run

    method FileFailure(keys: set<Session>, error: Failure, stage: Stage, currentReadyLease: bool)
      modifies this
      ensures View() == ApplyFailure(old(View()), keys, error, stage, currentReadyLease)
    {
      var verdict := ManagedRecoveryDisposition(error, currentReadyLease);
      var target := Target(DispositionOf(verdict), stage);
      var todo := keys;
      while todo != {}
        invariant todo <= keys
        invariant View() == old(View()).(pending := pending)
        invariant pending.Keys == old(pending).Keys + (keys - todo)
        invariant forall k :: k in pending ==> pending[k] == if k in keys && k !in todo then target else old(pending)[k]
        decreases todo
      {
        var key :| key in todo;
        pending := pending[key := target];
        todo := todo - {key};
      }
      assert pending == SetAll(old(pending), keys, target);
      if verdict == WaitForEndpoint && keys != {} { MarkWaiting(); }
      if verdict == Permanent && keys != {} { safetyReported := true; }
    }

    method MoveHead(phase: Phase)
      requires tail != []
      modifies this`tail
      ensures View() == SetPhase(old(View()), phase)
    {
      tail := [tail[0].(phase := phase)] + tail[1..];
    }

    method DropHead()
      requires tail != []
      modifies this`tail
      ensures View() == Pop(old(View()))
    {
      tail := tail[1..];
    }

    method StartRun(answer: LeaseAnswer, leaseCurrent: bool)
      requires tail != []
      modifies this
      ensures View() == BeginRun(old(View()), answer, leaseCurrent)
    {
      if stopped {
        DropHead();
      } else if fallbackWake.Some? {
        MoveHead(AwaitingBarrier(fallbackWake.value));
      } else {
        ContinueRun(answer, leaseCurrent);
      }
    }

    method ContinueRun(answer: LeaseAnswer, leaseCurrent: bool)
      requires tail != []
      modifies this
      ensures View() == SelectTargets(old(View()), answer, leaseCurrent)
    {
      var job := tail[0];
      if stopped || endpointEpoch != job.epoch { DropHead(); return; }
      var captured := Targets(View(), job.selection);
      if captured == map[] {
        safetyReported := false;
        DropHead();
      } else if !job.leased && answer.Refused? {
        MoveHead(LeaseRefused(captured, answer.error));
      } else if !RunIsCurrent(View(), job.epoch, leaseCurrent) {
        MoveHead(Returned);
      } else if ManagedKeys(captured) != {} {
        MoveHead(Recovering(captured, ManagedKeys(captured)));
      } else {
        WakeShared(captured, leaseCurrent);
      }
    }

    method WakeShared(captured: map<Session, Target>, leaseCurrent: bool)
      requires tail != []
      modifies this`tail
      ensures View() == WakeIfShared(old(View()), captured, leaseCurrent)
    {
      var shared := SharedKeys(View(), captured);
      if RunIsCurrent(View(), tail[0].epoch, leaseCurrent) && shared != {} {
        MoveHead(Waking(captured, shared));
      } else {
        MoveHead(Returned);
      }
    }

    method HandleLeaseRefusal()
      requires tail != [] && tail[0].phase.LeaseRefused?
      modifies this
      ensures View() == LeaseRefusalHandled(old(View()))
    {
      var job := tail[0];
      if !stopped && endpointEpoch == job.epoch {
        var managed := ManagedKeys(job.phase.captured);
        FileFailure(managed, job.phase.error, Managed, false);
        FileFailure(job.phase.captured.Keys - managed, job.phase.error, Shared, false);
      }
      MoveHead(Returned);
    }

    method RestoreAll(restored: set<Session>)
      modifies this`pending
      ensures View() == old(View()).(pending := RestoreKeys(old(pending), restored))
    {
      var todo := restored;
      while todo != {}
        invariant todo <= restored && pending.Keys == old(pending).Keys
        invariant forall k :: k in pending ==>
          pending[k] == if k in restored && k !in todo then old(pending)[k].(stage := Shared) else old(pending)[k]
        decreases todo
      {
        var key :| key in todo;
        if key in pending { pending := pending[key := pending[key].(stage := Shared)]; }
        todo := todo - {key};
      }
    }

    method FileBatchResult(batch: Batch)
      modifies this
      ensures View() == FileBatch(old(View()), batch)
    {
      RestoreAll(batch.restored);
      pending := pending - batch.settled;
      ghost var base := pending;
      var parked, waiting := false, false;
      for i := 0 to |batch.failures|
        invariant View() == old(View()).(pending := RecordFailures(base, batch.failures[..i]))
        invariant parked == Reports(batch.failures[..i], Permanent)
        invariant waiting == Reports(batch.failures[..i], WaitForEndpoint)
      {
        var failure := batch.failures[i];
        assert batch.failures[..i + 1][..i] == batch.failures[..i] && batch.failures[..i + 1][i] == failure;
        pending := pending[failure.0 := Target(DispositionOf(failure.1), Managed)];
        parked := parked || failure.1 == Permanent;
        waiting := waiting || failure.1 == WaitForEndpoint;
      }
      assert batch.failures[..|batch.failures|] == batch.failures;
      if parked { safetyReported := true; }
      if waiting { MarkWaiting(); }
    }

    method ReceiveBatch(answer: Answer<Batch>, leaseCurrent: bool)
      requires tail != [] && tail[0].phase.Recovering?
      modifies this
      ensures View() == BatchReturns(old(View()), answer, leaseCurrent)
    {
      var job := tail[0];
      var current := RunIsCurrent(View(), job.epoch, leaseCurrent);
      if current && answer.Ok? && OnlyNames(answer.value, job.phase.managed) {
        FileBatchResult(answer.value);
        WakeShared(job.phase.captured, leaseCurrent);
        return;
      }
      if current {
        FileFailure(job.phase.managed, if answer.Err? then answer.error else OtherError, Managed, true);
      }
      MoveHead(Returned);
    }

    method ReceiveWake(answer: Answer<()>, leaseCurrent: bool)
      requires tail != [] && tail[0].phase.Waking?
      modifies this
      ensures View() == WakeReturns(old(View()), answer, leaseCurrent)
    {
      var job := tail[0];
      if RunIsCurrent(View(), job.epoch, leaseCurrent) {
        if answer.Err? {
          FileFailure(job.phase.shared, answer.error, Shared, true);
        } else {
          pending := pending - job.phase.shared;
          safetyReported := false;
        }
      }
      MoveHead(Returned);
    }

    method FinishRun()
      requires tail != [] && tail[0].phase.Returned?
      modifies this
      ensures View() == RunReturns(old(View()))
    {
      ScheduleRetry();
      DropHead();
    }

    method StartIndependentWake() returns (barrier: nat)
      modifies this
      ensures View() == BeginIndependentWake(old(View())) && barrier == old(nextBarrier)
    {
      barrier := nextBarrier;
      fallbackWake := Some(barrier);
      openBarriers := openBarriers + {barrier};
      nextBarrier := barrier + 1;
    }

    method FinishIndependentWake(barrier: nat)
      modifies this
      ensures View() == EndIndependentWake(old(View()), barrier)
    {
      openBarriers := openBarriers - {barrier};
      if fallbackWake == Some(barrier) { fallbackWake := None; }
    }
  }
}

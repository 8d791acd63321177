/**
 What the recovery owner does with each failure and each answer: the disposition of every key, and when
 an endpoint counts as unavailable.
 */
module RecoveryFailures {
  import opened Common
  import opened Runs
  import opened ManagedRecovery

  /** The run at the head of the tail still speaks for its endpoint, as far as its own state goes. */
  predicate HeadIsCurrent(s: Lane)
  {
    s.queue != [] && !s.stopped && !s.unavailable && s.queue[0].epoch == s.epoch
  }

  /** Every key of `keys` is filed as `target`, and no other key moves. */
  predicate Files(s: Lane, t: Lane, keys: set<Session>, target: Target)
  {
    t.pending.Keys == s.pending.Keys + keys
    && forall k :: k in t.pending ==> t.pending[k] == if k in keys then target else s.pending[k]
  }

  // ---------------------------------------------------------------- errors

  /** A batch that throws under a live lease: an endpoint that went away under it is retried like a timeout,
      anything else parks the keys for safety; in no case does the endpoint become unavailable. An error
      that comes for another epoch, or after the lease, changes nothing. */
  lemma ThrownBatch(s: Lane, error: Failure, lease: bool)
    requires s.queue != [] && s.queue[0].phase.Recovering?
    ensures var t := BatchReturns(s, Err(error), lease);
      if HeadIsCurrent(s) && lease then
        Files(s, t, s.queue[0].phase.managed, Target(if error == OtherError then Safety else Retry, Managed))
        && !t.unavailable && t.timer == s.timer
      else t == s.(queue := t.queue)
  {
  }

  /** The same of the shared wake, whose keys keep their stage. */
  lemma ThrownWake(s: Lane, error: Failure, lease: bool)
    requires s.queue != [] && s.queue[0].phase.Waking?
    ensures var t := WakeReturns(s, Err(error), lease);
      if HeadIsCurrent(s) && lease then
        Files(s, t, s.queue[0].phase.shared, Target(if error == OtherError then Safety else Retry, Shared))
        && !t.unavailable && t.timer == s.timer
      else t == s.(queue := t.queue)
  {
  }

  /** An answer that names a key it was not given parks every key it was given. */
  lemma ForeignBatch(s: Lane, batch: Batch, key: Session)
    requires HeadIsCurrent(s) && s.queue[0].phase.Recovering? && key !in s.queue[0].phase.managed
    requires key in batch.restored || key in batch.settled || exists i :: 0 <= i < |batch.failures| && batch.failures[i].0 == key
    ensures var t := BatchReturns(s, Ok(batch), true);
      Files(s, t, s.queue[0].phase.managed, Target(Safety, Managed)) && !t.unavailable
  {
  }

  /** What a refused lease makes of a key: a timeout is retried, a missing endpoint is waited for, anything
      else is parked. */
  function RefusedAs(error: Failure): Disposition
  {
    match error
    case RpcTimeout => Retry
    case EndpointGone => Endpoint
    case OtherError => Safety
  }

  /** A run whose lease is refused files every key it had captured; a missing endpoint makes everything that
      is pending wait and disarms the timer, and nothing else does. */
  lemma RefusedLease(s: Lane)
    requires s.queue != [] && s.queue[0].phase.LeaseRefused? && s.queue[0].phase.captured != map[]
    ensures var captured, error := s.queue[0].phase.captured, s.queue[0].phase.error;
      var t := LeaseRefusalHandled(s);
      if s.stopped || s.epoch != s.queue[0].epoch then t == s.(queue := t.queue)
      else
        t.pending.Keys == s.pending.Keys + captured.Keys
        && (forall k :: k in captured ==> t.pending[k] == Target(RefusedAs(error), captured[k].stage))
        && (forall k :: k in s.pending && k !in captured ==>
              t.pending[k] == if error == EndpointGone then s.pending[k].(disposition := Endpoint) else s.pending[k])
        && (if error == EndpointGone then t.unavailable && t.timer.None? else t.unavailable == s.unavailable && t.timer == s.timer)
  {
    var captured, error := s.queue[0].phase.captured, s.queue[0].phase.error;
    var t := ApplyFailure(s, ManagedKeys(captured), error, Managed, false);
    var u := ApplyFailure(t, captured.Keys - ManagedKeys(captured), error, Shared, false);
    forall k: Session
      ensures (k in u.pending <==> k in s.pending || k in captured)
      ensures k in captured ==> u.pending[k] == Target(RefusedAs(error), captured[k].stage)
      ensures k in s.pending && k !in captured ==>
        u.pending[k] == if error == EndpointGone then s.pending[k].(disposition := Endpoint) else s.pending[k]
    {
      RefusedKey(s, captured, error, k);
    }
    RefusedKey(s, captured, error, 0);
  }

  lemma RefusedHalf(s: Lane, keys: set<Session>, error: Failure, stage: Stage, key: Session)
    ensures var t := ApplyFailure(s, keys, error, stage, false);
      var waits := error == EndpointGone && keys != {};
      (key in t.pending <==> key in s.pending || key in keys)
      && (key in keys ==> t.pending[key] == Target(RefusedAs(error), stage))
      && (key in s.pending && key !in keys ==> t.pending[key] == if waits then s.pending[key].(disposition := Endpoint) else s.pending[key])
      && (if waits then t.unavailable && t.timer.None? else t.unavailable == s.unavailable && t.timer == s.timer)
  {
  }

  lemma RefusedKey(s: Lane, captured: map<Session, Target>, error: Failure, key: Session)
    requires captured != map[]
    ensures var t := ApplyFailure(s, ManagedKeys(captured), error, Managed, false);
      var u := ApplyFailure(t, captured.Keys - ManagedKeys(captured), error, Shared, false);
      (key in u.pending <==> key in s.pending || key in captured)
      && (key in captured ==> u.pending[key] == Target(RefusedAs(error), captured[key].stage))
      && (key in s.pending && key !in captured ==>
            u.pending[key] == if error == EndpointGone then s.pending[key].(disposition := Endpoint) else s.pending[key])
      && (if error == EndpointGone then u.unavailable && u.timer.None? else u.unavailable == s.unavailable && u.timer == s.timer)
  {
    var managed := ManagedKeys(captured);
    var t := ApplyFailure(s, managed, error, Managed, false);
    RefusedHalf(s, managed, error, Managed, key);
    RefusedHalf(t, captured.Keys - managed, error, Shared, key);
    var some :| some in captured;
    assert some in managed || some in captured.Keys - managed;
  }

  /** A failure recorded from outside. */
  lemma RecordedFailure(s: Lane, key: Session, verdict: Verdict)
    requires !s.stopped
    ensures var t := RecordFailure(s, key, verdict);
      t.pending.Keys == s.pending.Keys + {key}
      && t.pending[key] == Target(match verdict case RetryLater => Retry case WaitForEndpoint => Endpoint case Permanent => Safety,
                                  if verdict != Permanent && key in s.pending then s.pending[key].stage else Managed)
      && (forall k :: k in s.pending && k != key ==>
            t.pending[k] == if verdict == WaitForEndpoint then s.pending[k].(disposition := Endpoint) else s.pending[k])
      && t.unavailable == (s.unavailable || verdict == WaitForEndpoint)
    ensures var retries := exists k :: k in s.pending && k != key && s.pending[k].disposition == Retry;
      RecordFailure(s, key, verdict).timer.Some? <==>
        match verdict
        case WaitForEndpoint => false
        case RetryLater => s.timer.Some? || !s.unavailable
        case Permanent => s.timer.Some? && retries
    ensures s.timer.Some? && RecordFailure(s, key, verdict).timer.Some? ==> RecordFailure(s, key, verdict).timer == s.timer
  {
    var t := RecordFailure(s, key, verdict);
    match verdict
    case RetryLater => assert key in t.pending && t.pending[key].disposition == Retry;
    case Permanent =>
      assert t.pending == s.pending[key := Target(Safety, Managed)];
      if k :| k in s.pending && k != key && s.pending[k].disposition == Retry {
        assert k in t.pending && t.pending[k].disposition == Retry;
      }
    case _ =>
  }

  // ---------------------------------------------------------------- answers

  predicate NamesOnly(batch: Batch, keys: set<Session>)
  {
    (forall k :: k in batch.restored ==> k in keys) && (forall k :: k in batch.settled ==> k in keys)
    && forall i :: 0 <= i < |batch.failures| ==> batch.failures[i].0 in keys
  }

  /** The last failure that the batch reports of a key, or the number of failures. */
  function LastReport(failures: seq<(Session, Verdict)>, key: Session): (i: nat)
    ensures i <= |failures| && (i < |failures| ==> failures[i].0 == key)
    ensures forall j :: 0 <= j < |failures| && (j > i || i == |failures|) ==> failures[j].0 != key
  {
    if failures == [] then 0
    else if failures[|failures| - 1].0 == key then |failures| - 1
    else
      var before := LastReport(failures[..|failures| - 1], key);
      if before == |failures| - 1 then |failures| else before
  }

  function ReportedAs(verdict: Verdict): Disposition
  {
    match verdict
    case RetryLater => Retry
    case WaitForEndpoint => Endpoint
    case Permanent => Safety
  }

  predicate ReportsWait(failures: seq<(Session, Verdict)>)
  {
    exists i :: 0 <= i < |failures| && failures[i].1 == WaitForEndpoint
  }

  lemma {:induction false} FailuresAreFiled(pending: map<Session, Target>, failures: seq<(Session, Verdict)>, key: Session)
    ensures var filed := RecordFailures(pending, failures);
      var i := LastReport(failures, key);
      if i < |failures| then key in filed && filed[key] == Target(ReportedAs(failures[i].1), Managed)
      else (key in filed <==> key in pending) && (key in pending ==> filed[key] == pending[key])
  {
    if failures != [] { FailuresAreFiled(pending, failures[..|failures| - 1], key); }
  }

  /** An answer that names only its own keys, key by key: a reported failure decides the disposition of its
      key, a settled key leaves, a restored one goes on to the shared wake, and every other stays. A report
      that the endpoint must be waited for makes everything that is left wait. */
  lemma AnsweredBatch(s: Lane, batch: Batch, key: Session)
    requires HeadIsCurrent(s) && s.queue[0].phase.Recovering? && NamesOnly(batch, s.queue[0].phase.managed)
    ensures var t := BatchReturns(s, Ok(batch), true);
      var i := LastReport(batch.failures, key);
      var kept := key in s.pending && key !in batch.settled;
      (key in t.pending <==> i < |batch.failures| || kept)
      && (key in t.pending ==>
            t.pending[key].stage == (if i < |batch.failures| then Managed else if key in batch.restored then Shared else s.pending[key].stage)
            && t.pending[key].disposition == if ReportsWait(batch.failures) then Endpoint
                                             else if i < |batch.failures| then ReportedAs(batch.failures[i].1)
                                             else s.pending[key].disposition)
      && t.unavailable == ReportsWait(batch.failures)
  {
    FailuresAreFiled(RestoreKeys(s.pending, batch.restored) - batch.settled, batch.failures, key);
    assert OnlyNames(batch, s.queue[0].phase.managed);
    assert Reports(batch.failures, WaitForEndpoint) <==> ReportsWait(batch.failures);
  }

  /** A shared wake that succeeds drops exactly the keys it was made for; every other stays as it is. */
  lemma AnsweredWake(s: Lane)
    requires HeadIsCurrent(s) && s.queue[0].phase.Waking?
    ensures var t := WakeReturns(s, Ok(()), true);
      (forall k :: k in t.pending <==> k in s.pending && k !in s.queue[0].phase.shared)
      && (forall k :: k in t.pending ==> t.pending[k] == s.pending[k])
      && !t.reported && t.timer == s.timer && !t.unavailable
  {
  }

  /** The keys a run is given: all that are pending, or only those to be retried. */
  predicate IsGiven(s: Lane, selection: Selection, key: Session)
  {
    key in s.pending && (selection.All? || s.pending[key].disposition == Retry)
  }

  lemma AllShared(s: Lane, captured: map<Session, Target>)
    requires ManagedKeys(captured) == {} && forall k :: k in captured ==> k in s.pending && captured[k] == s.pending[k]
    ensures SharedKeys(s, captured) == captured.Keys
  {
    forall k | k in captured
      ensures k in SharedKeys(s, captured)
    {
      assert k !in ManagedKeys(captured);
    }
  }

  /** A run that begins under a live lease hands to `recover` exactly the keys it is given that have not been
      restored yet; if there is none, it wakes the others. */
  lemma RunTakesItsKeys(s: Lane, lease: LeaseAnswer, key: Session)
    requires HeadIsCurrent(s) && (s.queue[0].leased || lease.Granted?) && IsGiven(s, s.queue[0].selection, key)
    ensures var t := SelectTargets(s, lease, true);
      t.queue != []
      && (s.pending[key].stage == Managed ==>
            t.queue[0].phase.Recovering?
            && (forall k :: k in t.queue[0].phase.managed <==> IsGiven(s, s.queue[0].selection, k) && s.pending[k].stage == Managed))
      && (t.queue[0].phase.Waking? ==>
            forall k :: k in t.queue[0].phase.shared <==> IsGiven(s, s.queue[0].selection, k))
      && (t.queue[0].phase.Recovering? || t.queue[0].phase.Waking?)
  {
    var captured := Targets(s, s.queue[0].selection);
    assert key in captured;
    if s.pending[key].stage == Managed {
      assert key in ManagedKeys(captured);
    } else if ManagedKeys(captured) == {} {
      assert key in SharedKeys(s, captured);
      AllShared(s, captured);
    }
  }

  /** A timer enqueues a run of its own epoch exactly if it is the one that is armed, and the endpoint is
      neither unavailable nor in a later epoch. */
  lemma TimerEnqueues(s: Lane, generation: nat, epoch: nat)
    ensures var t := TimerFires(s, generation, epoch);
      if s.timer == Some(Timer(generation, epoch)) && !s.stopped && !s.unavailable && s.epoch == epoch
      then t == s.(timer := None, queue := s.queue + [Job(RetryOnly, epoch, false, Queued)])
      else t == s
  {
  }

  /** A ready endpoint begins a new epoch with a run over everything that is pending. */
  lemma ReadyEnqueues(s: Lane)
    ensures var t := EndpointReady(s);
      t.epoch == s.epoch + 1 && !t.unavailable && t.timer.None? && t.pending == s.pending
      && t.queue == if s.stopped then s.queue else s.queue + [Job(All, s.epoch + 1, true, Queued)]
  {
  }

  /** A lost endpoint begins a new epoch in which everything pending waits for it, and no timer is armed. */
  lemma LossParks(s: Lane)
    requires !s.stopped
    ensures var t := EndpointUnavailable(s);
      t.epoch == s.epoch + 1 && t.unavailable && t.timer.None? && t.queue == s.queue && t.pending.Keys == s.pending.Keys
      && forall k :: k in s.pending ==> t.pending[k] == s.pending[k].(disposition := Endpoint)
  {
  }

  /** `stop` leaves nothing pending and no timer, and after it no event brings anything back. */
  lemma StopQuiets(s: Lane, ev: Event)
    requires Inv(s) && s.stopped && Enabled(s, ev)
    ensures var t := Next(s, ev);
      t.stopped && t.pending == map[] && t.timer.None? && Attempted(s, t) == {}
      && if ev.RunBegins? || ev.BarrierReleased? then t.queue == s.queue[1..] else |t.queue| <= |s.queue|
    ensures Stop(s.(stopped := false)).stopped && Stop(s.(stopped := false)).pending == map[] && Stop(s.(stopped := false)).timer.None?
  {
    NextKeepsInv(s, ev);
    if key :| key in Attempted(s, Next(s, ev)) {
      AttemptsAreNeverStale(s, ev, key);
    }
  }

  /** A run that begins while a shared wake of its endpoint goes on independently attempts nothing until
      that wake has ended. */
  lemma RunWaitsForWake(s: Lane, lease: LeaseAnswer, current: bool)
    requires s.queue != [] && s.queue[0].phase.Queued? && s.fallback.Some? && !s.stopped
    ensures var t := BeginRun(s, lease, current);
      t.queue != [] && t.queue[0].phase == AwaitingBarrier(s.fallback.value) && Attempted(s, t) == {} && t.pending == s.pending
      && (s.fallback.value in s.openBarriers ==> !Enabled(t, BarrierReleased(lease, current)))
  {
  }

  /** An independent wake holds its own barrier from its beginning to its end, and runs that begin meanwhile
      wait for the newest one; a wake that ends later than a newer one began does not let them go. */
  lemma IndependentWakes(s: Lane, barrier: nat)
    ensures var t := BeginIndependentWake(s);
      t.fallback == Some(s.nextBarrier) && s.nextBarrier in t.openBarriers && t.nextBarrier > s.nextBarrier && t.pending == s.pending
    ensures var t := EndIndependentWake(s, barrier);
      barrier !in t.openBarriers && t.fallback == (if s.fallback == Some(barrier) then None else s.fallback)
      && (forall b :: b != barrier ==> (b in t.openBarriers <==> b in s.openBarriers)) && t.pending == s.pending && t.queue == s.queue
  {
  }

  /** A run that returns leaves the tail; if a retry is left that may be served, a timer of its epoch is armed. */
  lemma ReturnedRunArms(s: Lane)
    requires Inv(s) && s.queue != [] && s.queue[0].phase.Returned?
    ensures var t := RunReturns(s);
      var served := !s.stopped && !s.unavailable && exists k :: k in s.pending && s.pending[k].disposition == Retry;
      t.queue == s.queue[1..] && t.pending == s.pending && t.unavailable == s.unavailable && t.epoch == s.epoch
      && (t.timer.Some? <==> s.timer.Some? || served)
      && (t.timer.Some? ==> t.timer.value.epoch == s.epoch) && (s.timer.Some? ==> t.timer == s.timer)
  {
  }

  // ---------------------------------------------------------------- the safety report

  /** A key is parked for safety under a run that is current. */
  predicate ParksForSafety(s: Lane, ev: Event)
    requires Enabled(s, ev)
  {
    match ev
    case RefusalHandled =>
      !s.stopped && s.queue[0].epoch == s.epoch && s.queue[0].phase.error == OtherError && s.queue[0].phase.captured != map[]
    case BatchReturned(answer, lease) =>
      var managed := s.queue[0].phase.managed;
      HeadIsCurrent(s) && lease
      && (match answer
          case Err(error) => error == OtherError && managed != {}
          case Ok(batch) => if NamesOnly(batch, managed) then exists f <- batch.failures :: f.1 == Permanent else managed != {})
    case WakeReturned(answer, lease) =>
      HeadIsCurrent(s) && lease && answer.Err? && answer.error == OtherError && s.queue[0].phase.shared != {}
    case _ => false
  }

  /** A shared wake succeeds, or a current run finds nothing to do. */
  predicate ClearsReport(s: Lane, ev: Event)
    requires Enabled(s, ev)
  {
    match ev
    case WakeReturned(answer, lease) => HeadIsCurrent(s) && lease && answer.Ok?
    case RunBegins(_, _) => s.fallback.None? && FindsNothing(s)
    case BarrierReleased(_, _) => FindsNothing(s)
    case _ => false
  }

  predicate FindsNothing(s: Lane)
    requires s.queue != []
  {
    !s.stopped && s.queue[0].epoch == s.epoch && forall k :: k in s.pending ==> !IsGiven(s, s.queue[0].selection, k)
  }

  lemma SelectionReports(s: Lane, lease: LeaseAnswer, current: bool)
    requires s.queue != []
    ensures SelectTargets(s, lease, current).reported == (s.reported && !FindsNothing(s))
  {
    var captured := Targets(s, s.queue[0].selection);
    if captured != map[] {
      var some :| some in captured;
      assert IsGiven(s, s.queue[0].selection, some);
    } else {
      forall k | k in s.pending
        ensures !IsGiven(s, s.queue[0].selection, k)
      {
        assert k !in captured;
      }
    }
  }

  lemma RefusalReports(s: Lane)
    requires s.queue != [] && s.queue[0].phase.LeaseRefused?
    ensures LeaseRefusalHandled(s).reported == (s.reported || ParksForSafety(s, RefusalHandled))
  {
    var captured := s.queue[0].phase.captured;
    if captured != map[] {
      var some :| some in captured;
      assert some in ManagedKeys(captured) || some in captured.Keys - ManagedKeys(captured);
    } else {
      assert captured.Keys == {};
    }
  }

  lemma BatchReports(s: Lane, answer: Answer<Batch>, lease: bool)
    requires s.queue != [] && s.queue[0].phase.Recovering?
    ensures BatchReturns(s, answer, lease).reported == (s.reported || ParksForSafety(s, BatchReturned(answer, lease)))
  {
    if answer.Ok? {
      assert OnlyNames(answer.value, s.queue[0].phase.managed) <==> NamesOnly(answer.value, s.queue[0].phase.managed);
      if Reports(answer.value.failures, Permanent) {
        var i :| 0 <= i < |answer.value.failures| && answer.value.failures[i].1 == Permanent;
        assert answer.value.failures[i] in answer.value.failures;
      }
    }
  }

  /** The endpoint counts as reported from the first key that is parked for safety until a shared wake
      succeeds or a run finds nothing to do: in between no further report is made. */
  lemma ReportMoves(s: Lane, ev: Event)
    requires Enabled(s, ev)
    ensures Next(s, ev).reported <==> ParksForSafety(s, ev) || (s.reported && !ClearsReport(s, ev))
  {
    match ev
    case RunBegins(lease, current) => SelectionReports(s, lease, current);
    case BarrierReleased(lease, current) => SelectionReports(s, lease, current);
    case RefusalHandled => RefusalReports(s);
    case BatchReturned(answer, lease) => BatchReports(s, answer, lease);
    case _ =>
  }

  // ---------------------------------------------------------------- availability, over runs

  /** What makes an endpoint unavailable: the announcement, a failure recorded or reported that waits for the
      endpoint, or a lease refused because the endpoint is gone. */
  predicate Loses(s: Lane, ev: Event)
    requires Enabled(s, ev)
  {
    !s.stopped
    && match ev
      case Unavailable => true
      case FailureRecorded(_, verdict) => verdict == WaitForEndpoint
      case RefusalHandled =>
        s.queue[0].epoch == s.epoch && s.queue[0].phase.error == EndpointGone && s.queue[0].phase.captured != map[]
      case BatchReturned(answer, lease) =>
        lease && HeadIsCurrent(s) && answer.Ok? && NamesOnly(answer.value, s.queue[0].phase.managed) && ReportsWait(answer.value.failures)
      case _ => false
  }

  lemma SelectionIsNoLoss(s: Lane, lease: LeaseAnswer, current: bool)
    requires s.queue != []
    ensures SelectTargets(s, lease, current).unavailable == s.unavailable && BeginRun(s, lease, current).unavailable == s.unavailable
  {
  }

  lemma BatchLoss(s: Lane, answer: Answer<Batch>, lease: bool)
    requires s.queue != [] && s.queue[0].phase.Recovering?
    ensures BatchReturns(s, answer, lease).unavailable <==> s.unavailable || Loses(s, BatchReturned(answer, lease))
  {
    if HeadIsCurrent(s) && lease {
      if answer.Err? { ThrownBatch(s, answer.error, lease); }
      else if NamesOnly(answer.value, s.queue[0].phase.managed) { AnsweredBatch(s, answer.value, 0); }
      else {
        var batch, keys := answer.value, s.queue[0].phase.managed;
        var key :| key !in keys
          && (key in batch.restored || key in batch.settled || exists i :: 0 <= i < |batch.failures| && batch.failures[i].0 == key);
        ForeignBatch(s, batch, key);
      }
    }
  }

  lemma RefusalLoss(s: Lane)
    requires s.queue != [] && s.queue[0].phase.LeaseRefused?
    ensures LeaseRefusalHandled(s).unavailable <==> s.unavailable || Loses(s, RefusalHandled)
  {
    if s.queue[0].phase.captured != map[] {
      RefusedLease(s);
    } else {
      assert s.queue[0].phase.captured.Keys == {};
    }
  }

  lemma AvailabilityStep(s: Lane, ev: Event)
    requires Enabled(s, ev)
    ensures Next(s, ev).unavailable <==> Loses(s, ev) || (s.unavailable && ev != Ready)
  {
    match ev
    case RunBegins(lease, current) => SelectionIsNoLoss(s, lease, current);
    case BarrierReleased(lease, current) => SelectionIsNoLoss(s, lease, current);
    case BatchReturned(answer, lease) => BatchLoss(s, answer, lease);
    case RefusalHandled => RefusalLoss(s);
    case WakeReturned(answer, lease) => if answer.Err? { ThrownWake(s, answer.error, lease); }
    case _ =>
  }

  /** Over every run: an endpoint is unavailable exactly from a step that loses it until the next `endpointReady`. */
  lemma {:induction false} UnavailableIff(states: seq<Lane>, events: seq<Event>, i: nat)
    requires Trace(states, events) && i < |states|
    ensures forall j :: 0 <= j < |events| ==> Enabled(states[j], events[j])
    ensures states[i].unavailable <==>
      exists j :: 0 <= j < i && Loses(states[j], events[j]) && forall k :: j < k < i ==> events[k] != Ready
  {
    forall j | 0 <= j < |events|
      ensures Enabled(states[j], events[j])
    {
      assert Step(states[j], events[j], states[j + 1]);
    }
    if i > 0 {
      UnavailableIff(states, events, i - 1);
      assert Step(states[i - 1], events[i - 1], states[i]);
      AvailabilityStep(states[i - 1], events[i - 1]);
    }
  }
}

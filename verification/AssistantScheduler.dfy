/** `AssistantScheduler` with its arrays, id set and counters changed in place. */
module AssistantScheduler {
  import opened Common
  import opened SchedulerQueue

  class AssistantScheduler {
    var users: seq<UserId>
    var events: seq<Queued>
    var eventIds: set<EventId>
    var consecutiveUsers: nat
    var completedConversationPeriods: nat
    var running: bool
    var eventTimer: bool
    ghost var accepted: nat
    ghost var superseded: nat
    ghost var committed: nat
    const options: Options

    ghost function View(): Queue
      reads this
    {
      Queue(users, events, eventIds, consecutiveUsers, completedConversationPeriods, running, eventTimer, accepted, superseded, committed)
    }

    constructor (options: Options)
      ensures View() == EMPTY && this.options == options
    {
      users, events, eventIds, consecutiveUsers, completedConversationPeriods := [], [], {}, 0, 0;
      running, eventTimer, accepted, superseded, committed := false, false, 0, 0, 0;
      this.options := options;
    }

    method AddUser(user: UserId)
      modifies this`users, this`running
      ensures View() == EnqueueUser(old(View()), user)
    {
      users := users + [user];
      running := true;
    }

    method AddEvent(job: EventJob, at: int)
      modifies this
      ensures View() == EnqueueEvent(old(View()), job, at)
    {
      if job.id in eventIds { return; }
      accepted := accepted + 1;
      if job.transient {
        var index := TransientIndex(events, job.session);
        if index < |events| {
          eventIds := eventIds - {events[index].job.id};
          events := events[index := Queued(job, events[index].queuedAt)];
          eventIds := eventIds + {job.id};
          superseded := superseded + 1;
          eventTimer := true;
          return;
        }
      }
      events := events + [Queued(job, at)];
      eventIds := eventIds + {job.id};
      eventTimer := true;
      if |users| > 0 || consecutiveUsers >= MAX_CONSECUTIVE_USERS { running := true; }
    }

    /** The loop that reads a batch without taking it. */
    method PeekEventJobs() returns (batch: seq<EventJob>)
      ensures |batch| == BatchLength(events, options) && forall i :: 0 <= i < |batch| ==> batch[i] == events[i].job
    {
      batch := [];
      var bytes: nat := 0;
      for i := 0 to |events|
        invariant |batch| == i && forall j :: 0 <= j < i ==> batch[j] == events[j].job
        invariant BatchFrom(events, options, i, bytes) == BatchLength(events, options)
      {
        if |batch| >= options.maxBatchEvents { break; }
        var size := events[i].job.size;
        if |batch| > 0 && bytes + size > options.maxBatchBytes { break; }
        batch := batch + [events[i].job];
        bytes := bytes + size;
      }
    }

    /** The loop that shifts a batch off the queue. */
    method ShiftBatch() returns (batch: seq<EventJob>)
      modifies this`events, this`eventIds, this`committed
      ensures |batch| == BatchLength(old(events), options) && forall i :: 0 <= i < |batch| ==> batch[i] == old(events)[i].job
      ensures events == old(events)[|batch|..] && eventIds == old(eventIds) - IdsOf(old(events)[..|batch|])
      ensures committed == old(committed) + |batch|
    {
      batch := [];
      var bytes: nat := 0;
      ghost var all := events;
      while |events| > 0 && |batch| < options.maxBatchEvents
        invariant |batch| <= |all| && events == all[|batch|..] && forall j :: 0 <= j < |batch| ==> batch[j] == all[j].job
        invariant eventIds == old(eventIds) - IdsOf(all[..|batch|]) && committed == old(committed) + |batch|
        invariant BatchFrom(all, options, |batch|, bytes) == BatchLength(all, options)
        decreases |events|
      {
        var next := events[0].job;
        assert next == all[|batch|].job;
        if |batch| > 0 && bytes + next.size > options.maxBatchBytes { break; }
        OneMoreId(all, |batch|);
        events := events[1..];
        eventIds := eventIds - {next.id};
        committed := committed + 1;
        batch := batch + [next];
        bytes := bytes + next.size;
      }
    }

    /** Takes the jobs that peeking would have shown, and arms the timer for what is left. */
    method TakeEventBatch() returns (batch: seq<EventJob>)
      modifies this`events, this`eventIds, this`committed, this`eventTimer
      ensures |batch| == BatchLength(old(events), options) && forall i :: 0 <= i < |batch| ==> batch[i] == old(events)[i].job
      ensures View() == ArmWindow(Remove(old(View()), |batch|).(timer := false))
    {
      eventTimer := false;
      batch := ShiftBatch();
      if |events| > 0 { eventTimer := true; }
    }

    method PeekEligibleEventBatch(now: int) returns (batch: Option<seq<EventJob>>, forced: bool)
      ensures batch.Some? <==> Eligible(View(), options, now)
      ensures batch.Some? ==> |batch.value| == BatchLength(events, options) && forced == Forced(View(), options, now)
      ensures batch.Some? ==> forall i :: 0 <= i < |batch.value| ==> batch.value[i] == events[i].job
    {
      if |events| == 0 { return None, false; }
      var age := now - events[0].queuedAt;
      forced := completedConversationPeriods >= MAX_PERIODS || age >= options.maxEventAge;
      if !forced && age < options.batchWindow { return None, forced; }
      var jobs := PeekEventJobs();
      batch := Some(jobs);
    }

    /** Removes exactly the prefix that was peeked, or reports that the candidate changed and changes nothing. */
    method CommitEventBatch(now: int, ids: seq<EventId>) returns (ok: bool)
      modifies this`events, this`eventIds, this`committed, this`completedConversationPeriods
      ensures ok == Commits(old(View()), options, now, ids) && View() == Commit(old(View()), options, now, ids)
    {
      var batch, forced := PeekEligibleEventBatch(now);
      if batch.None? || |batch.value| != |ids| || exists i :: 0 <= i < |ids| && batch.value[i].id != ids[i] { return false; }
      var gone := events[..|ids|];
      events := events[|ids|..];
      eventIds := eventIds - IdsOf(gone);
      committed := committed + |ids|;
      completedConversationPeriods := 0;
      return true;
    }

    method WakeAt(now: int) returns (at: Option<int>)
      ensures at == NextWakeAt(View(), options, now)
    {
      if |events| == 0 { return None; }
      if completedConversationPeriods >= MAX_PERIODS { return Some(now); }
      return Some(Min(events[0].queuedAt + options.batchWindow, events[0].queuedAt + options.maxEventAge));
    }

    method ServicesEvents(now: int) returns (due: bool)
      ensures due == ShouldServiceEvents(View(), options, now)
    {
      if |events| == 0 { return false; }
      if consecutiveUsers >= MAX_CONSECUTIVE_USERS { return true; }
      var age := now - events[0].queuedAt;
      return age >= options.maxEventAge || (|users| == 0 && age >= options.batchWindow);
    }

    /** One turn of the pump. */
    method PumpOnce(now: int, later: int) returns (job: Job)
      modifies this
      ensures job == Choose(old(View()), options, now) && View() == Work(old(View()), options, now, later)
    {
      var due := ServicesEvents(now);
      if due {
        var batch := TakeEventBatch();
        consecutiveUsers := 0;
        return Batch(|batch|);
      }
      if |users| > 0 {
        users := users[1..];
        consecutiveUsers := consecutiveUsers + 1;
        return User;
      }
      if |events| > 0 {
        eventTimer := true;
        running := ServicesEvents(later);
      } else {
        running, eventTimer := false, false;
      }
      return Idle;
    }
  }

  lemma OneMoreId(events: seq<Queued>, n: nat)
    requires n < |events|
    ensures IdsOf(events[..n + 1]) == IdsOf(events[..n]) + {events[n].job.id}
    ensures events[n..][1..] == events[n + 1..]
  {
    assert events[..n + 1] == events[..n] + [events[n]];
    IdsOfConcat(events[..n], [events[n]]);
    assert IdsOf([events[n]]) == {events[n].job.id};
  }
}

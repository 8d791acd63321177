/**
 `AssistantScheduler`: a queue of user jobs and a queue of events that are coalesced in place,
 batched under two bounds, aged, and protected from starvation by users. `Queue` also counts what
 was accepted, superseded and committed.
 */
module SchedulerQueue {
  import opened Common
  import opened Runs

  type EventId = nat
  type SessionKey = nat
  type UserId = nat

  /** `size` is the byte length of the payload; a transient event reports a status and no final. */
  datatype EventJob = EventJob(id: EventId, session: SessionKey, transient: bool, size: nat)
  datatype Queued = Queued(job: EventJob, queuedAt: int)
  /** The source defaults to 20 events, 8 KiB, one second and thirty seconds. */
  datatype Options = Options(maxBatchEvents: nat, maxBatchBytes: nat, batchWindow: nat, maxEventAge: nat)

  const MAX_CONSECUTIVE_USERS := 5
  const MAX_PERIODS := 5

  datatype Queue = Queue(
    users: seq<UserId>,
    events: seq<Queued>,
    ids: set<EventId>,
    consecutiveUsers: nat,
    periods: nat,
    running: bool,
    timer: bool,
    accepted: nat,
    superseded: nat,
    committed: nat)

  // ---------------------------------------------------------------- enqueueing

  /** The first queued transient event of a session. */
  function TransientIndex(events: seq<Queued>, session: SessionKey): (i: nat)
    ensures i <= |events|
    ensures i < |events| ==> events[i].job.session == session && events[i].job.transient
    ensures forall j :: 0 <= j < i ==> !(events[j].job.session == session && events[j].job.transient)
  {
    if events == [] || (events[0].job.session == session && events[0].job.transient) then 0
    else 1 + TransientIndex(events[1..], session)
  }

  function ArmWindow(q: Queue): Queue
  {
    if q.events == [] then q else q.(timer := true)
  }

  function EnqueueUser(q: Queue, user: UserId): Queue
  {
    q.(users := q.users + [user], running := true)
  }

  function EnqueueEvent(q: Queue, job: EventJob, at: int): Queue
  {
    if job.id in q.ids then q
    else
      var i := TransientIndex(q.events, job.session);
      if job.transient && i < |q.events| then
        ArmWindow(q.(ids := q.ids - {q.events[i].job.id} + {job.id}, events := q.events[i := Queued(job, q.events[i].queuedAt)],
                     accepted := q.accepted + 1, superseded := q.superseded + 1))
      else
        var pushed := ArmWindow(q.(events := q.events + [Queued(job, at)], ids := q.ids + {job.id}, accepted := q.accepted + 1));
        if pushed.users != [] || pushed.consecutiveUsers >= MAX_CONSECUTIVE_USERS then pushed.(running := true) else pushed
  }

  // ---------------------------------------------------------------- batches

  function Bytes(events: seq<Queued>): nat
  {
    if events == [] then 0 else Bytes(events[..|events| - 1]) + events[|events| - 1].job.size
  }

  /** How many events the batching loop takes: it never leaves out the first one for its size. */
  function BatchFrom(events: seq<Queued>, options: Options, taken: nat, bytes: nat): (n: nat)
    requires taken <= |events|
    ensures taken <= n <= |events|
    decreases |events| - taken
  {
    if taken == |events| || taken >= options.maxBatchEvents then taken
    else if taken > 0 && bytes + events[taken].job.size > options.maxBatchBytes then taken
    else BatchFrom(events, options, taken + 1, bytes + events[taken].job.size)
  }

  function BatchLength(events: seq<Queued>, options: Options): (n: nat)
    ensures n <= |events|
  {
    BatchFrom(events, options, 0, 0)
  }

  /** The first `n` events make an admissible batch; one event does whatever its size. */
  predicate Fits(events: seq<Queued>, options: Options, n: nat)
  {
    n <= |events| && n <= options.maxBatchEvents && (n <= 1 || Bytes(events[..n]) <= options.maxBatchBytes)
  }

  lemma {:induction false} BytesGrow(events: seq<Queued>, n: nat, m: nat)
    requires n <= m <= |events|
    ensures Bytes(events[..n]) <= Bytes(events[..m])
  {
    if n < m {
      BytesGrow(events, n, m - 1);
      assert events[..m][..m - 1] == events[..m - 1];
    }
  }

  lemma {:induction false} BatchFromIsLongest(events: seq<Queued>, options: Options, taken: nat)
    requires taken <= |events| && Fits(events, options, taken)
    ensures var n := BatchFrom(events, options, taken, Bytes(events[..taken]));
      Fits(events, options, n) && forall m: nat :: Fits(events, options, m) ==> m <= n
    decreases |events| - taken
  {
    if taken < |events| && taken < options.maxBatchEvents {
      assert events[..taken + 1][..taken] == events[..taken];
      if taken > 0 && Bytes(events[..taken + 1]) > options.maxBatchBytes {
        forall m: nat | Fits(events, options, m)
          ensures m <= taken
        {
          if m > taken { BytesGrow(events, taken + 1, m); }
        }
      } else {
        BatchFromIsLongest(events, options, taken + 1);
      }
    }
  }

  /** A batch is the longest admissible prefix, and is not empty if a batch may hold an event at all. */
  lemma BatchIsLongestPrefix(events: seq<Queued>, options: Options)
    ensures var n := BatchLength(events, options);
      Fits(events, options, n) && (forall m: nat :: Fits(events, options, m) ==> m <= n)
      && (events != [] && options.maxBatchEvents >= 1 ==> n >= 1)
  {
    assert events[..0] == [];
    BatchFromIsLongest(events, options, 0);
    if events != [] && options.maxBatchEvents >= 1 { assert Fits(events, options, 1); }
  }

  function IdsOf(events: seq<Queued>): set<EventId>
  {
    set e | e in events :: e.job.id
  }

  /** Take the first `n` events off the queue. */
  function Remove(q: Queue, n: nat): Queue
    requires n <= |q.events|
  {
    q.(events := q.events[n..], ids := q.ids - IdsOf(q.events[..n]), committed := q.committed + n)
  }

  // ---------------------------------------------------------------- eligibility

  predicate Forced(q: Queue, options: Options, now: int)
    requires q.events != []
  {
    q.periods >= MAX_PERIODS || now - q.events[0].queuedAt >= options.maxEventAge
  }

  predicate Eligible(q: Queue, options: Options, now: int)
  {
    q.events != [] && (Forced(q, options, now) || now - q.events[0].queuedAt >= options.batchWindow)
  }

  function NextWakeAt(q: Queue, options: Options, now: int): Option<int>
  {
    if q.events == [] then None
    else if q.periods >= MAX_PERIODS then Some(now)
    else Some(Min(q.events[0].queuedAt + options.batchWindow, q.events[0].queuedAt + options.maxEventAge))
  }

  /** The wake-up time is the least time at which a batch is eligible, or now when the completed
      conversation periods already force one. */
  lemma WakeIsLeastEligible(q: Queue, options: Options, now: int, t: int)
    requires q.events != []
    ensures NextWakeAt(q, options, now).Some?
    ensures q.periods < MAX_PERIODS ==> (Eligible(q, options, t) <==> t >= NextWakeAt(q, options, now).value)
    ensures q.periods >= MAX_PERIODS ==> NextWakeAt(q, options, now) == Some(now) && Eligible(q, options, t)
  {
  }

  /** A commit goes through exactly when the batch that was peeked is the one that is eligible now. */
  predicate Commits(q: Queue, options: Options, now: int, ids: seq<EventId>)
  {
    Eligible(q, options, now)
    && |ids| == BatchLength(q.events, options)
    && forall i :: 0 <= i < |ids| ==> ids[i] == q.events[i].job.id
  }

  function Commit(q: Queue, options: Options, now: int, ids: seq<EventId>): Queue
  {
    if Commits(q, options, now, ids) then Remove(q, |ids|).(periods := 0) else q
  }

  // ---------------------------------------------------------------- the pump

  predicate ShouldServiceEvents(q: Queue, options: Options, now: int)
  {
    q.events != []
    && (q.consecutiveUsers >= MAX_CONSECUTIVE_USERS
        || now - q.events[0].queuedAt >= options.maxEventAge
        || (q.users == [] && now - q.events[0].queuedAt >= options.batchWindow))
  }

  datatype Job = Batch(count: nat) | User | Idle

  function Choose(q: Queue, options: Options, now: int): Job
  {
    if ShouldServiceEvents(q, options, now) then Batch(BatchLength(q.events, options))
    else if q.users != [] then User
    else Idle
  }

  /** One turn of the pump, up to the await of its job or to its end. `later` is the clock read again
      when the pump ends. */
  function Work(q: Queue, options: Options, now: int, later: int): Queue
  {
    match Choose(q, options, now)
    case Batch(n) => ArmWindow(Remove(q, n).(consecutiveUsers := 0, timer := false))
    case User => q.(users := q.users[1..], consecutiveUsers := q.consecutiveUsers + 1)
    case Idle =>
      if q.events == [] then q.(running := false, timer := false)
      else ArmWindow(q).(running := ShouldServiceEvents(q, options, later))
  }

  // ---------------------------------------------------------------- runs

  datatype Event =
    | UserCame(user: UserId)
    | EventCame(job: EventJob, at: int)
    | PeriodCompleted
    | Committed(now: int, ids: seq<EventId>)
    | Worked(now: int, later: int)
    | TimerFired

  predicate Enabled(q: Queue, ev: Event)
  {
    match ev
    case Worked(_, _) => q.running
    case TimerFired => q.timer
    case _ => true
  }

  function Next(q: Queue, options: Options, ev: Event): Queue
    requires Enabled(q, ev)
  {
    match ev
    case UserCame(user) => EnqueueUser(q, user)
    case EventCame(job, at) => EnqueueEvent(q, job, at)
    case PeriodCompleted => q.(periods := q.periods + 1)
    case Committed(now, ids) => Commit(q, options, now, ids)
    case Worked(now, later) => Work(q, options, now, later)
    case TimerFired => q.(timer := false, running := true)
  }

  const EMPTY := Queue([], [], {}, 0, 0, false, false, 0, 0, 0)

  /** Ids are distinct and the id set is exact; one transient event a session; nothing unaccounted;
      queued work always has a running pump or an armed timer. */
  ghost predicate Valid(q: Queue)
  {
    && q.ids == IdsOf(q.events)
    && (forall i, j :: 0 <= i < j < |q.events| ==> q.events[i].job.id != q.events[j].job.id)
    && (forall i, j :: 0 <= i < j < |q.events| && q.events[i].job.transient && q.events[j].job.transient ==>
          q.events[i].job.session != q.events[j].job.session)
    && q.accepted == q.committed + |q.events| + q.superseded
    && (q.events != [] ==> q.running || q.timer)
    && (q.users != [] ==> q.running)
  }

  lemma IdsOfConcat(a: seq<Queued>, b: seq<Queued>)
    ensures IdsOf(a + b) == IdsOf(a) + IdsOf(b)
  {
  }

  lemma RemoveKeepsIds(q: Queue, n: nat)
    requires Valid(q) && n <= |q.events|
    ensures var r := Remove(q, n); r.ids == IdsOf(r.events) && r.accepted == r.committed + |r.events| + r.superseded
  {
    var gone, left := q.events[..n], q.events[n..];
    assert q.events == gone + left;
    IdsOfConcat(gone, left);
    assert IdsOf(gone) !! IdsOf(left) by {
      forall a, b | a in gone && b in left
        ensures a.job.id != b.job.id
      {
        var i :| 0 <= i < n && q.events[i] == a;
        var j :| 0 <= j < |left| && left[j] == b;
        assert q.events[n + j] == b;
      }
    }
  }

  lemma RemoveKeepsValid(q: Queue, n: nat)
    requires Valid(q) && n <= |q.events|
    ensures Valid(Remove(q, n))
  {
    RemoveKeepsIds(q, n);
  }

  lemma ReplacedIds(events: seq<Queued>, i: nat, e: Queued)
    requires i < |events|
    requires forall a, b :: 0 <= a < b < |events| ==> events[a].job.id != events[b].job.id
    ensures IdsOf(events[i := e]) == IdsOf(events) - {events[i].job.id} + {e.job.id}
  {
    var after := events[i := e];
    forall id
      ensures id in IdsOf(after) <==> id in IdsOf(events) - {events[i].job.id} + {e.job.id}
    {
      if id in IdsOf(events) && id != events[i].job.id {
        var k :| 0 <= k < |events| && events[k].job.id == id;
        assert after[k] == events[k] && after[k] in after;
      }
      if id in IdsOf(after) {
        var k :| 0 <= k < |after| && after[k].job.id == id;
        if k != i { assert events[k] in events; }
      }
      assert after[i] in after;
    }
  }

  lemma CoalesceKeepsValid(q: Queue, job: EventJob, i: nat)
    requires Valid(q) && job.id !in q.ids && job.transient
    requires i < |q.events| && q.events[i].job.transient && q.events[i].job.session == job.session
    ensures var events := q.events[i := Queued(job, q.events[i].queuedAt)];
      Valid(q.(ids := q.ids - {q.events[i].job.id} + {job.id}, events := events,
               accepted := q.accepted + 1, superseded := q.superseded + 1))
  {
    var events := q.events[i := Queued(job, q.events[i].queuedAt)];
    assert forall k :: 0 <= k < |q.events| ==> q.events[k] in q.events && q.events[k].job.id in q.ids;
    ReplacedIds(q.events, i, Queued(job, q.events[i].queuedAt));
    assert forall a, b :: 0 <= a < b < |events| ==> events[a].job.id != events[b].job.id;
  }

  lemma PushKeepsValid(q: Queue, job: EventJob, at: int)
    requires Valid(q) && job.id !in q.ids
    requires job.transient ==> TransientIndex(q.events, job.session) == |q.events|
    ensures Valid(q.(events := q.events + [Queued(job, at)], ids := q.ids + {job.id}, accepted := q.accepted + 1, timer := true))
  {
    var events := q.events + [Queued(job, at)];
    assert forall k :: 0 <= k < |q.events| ==> q.events[k] in q.events && q.events[k].job.id in q.ids;
    IdsOfConcat(q.events, [Queued(job, at)]);
    assert IdsOf([Queued(job, at)]) == {job.id};
  }

  lemma EnqueueKeepsValid(q: Queue, job: EventJob, at: int)
    requires Valid(q)
    ensures Valid(EnqueueEvent(q, job, at))
  {
    if job.id !in q.ids {
      var i := TransientIndex(q.events, job.session);
      if job.transient && i < |q.events| {
        CoalesceKeepsValid(q, job, i);
      } else {
        PushKeepsValid(q, job, at);
      }
    }
  }

  lemma NextKeepsValid(q: Queue, options: Options, ev: Event)
    requires Valid(q) && Enabled(q, ev)
    ensures Valid(Next(q, options, ev))
  {
    match ev
    case EventCame(job, at) => EnqueueKeepsValid(q, job, at);
    case Committed(now, ids) => if Commits(q, options, now, ids) { RemoveKeepsValid(q, |ids|); }
    case Worked(now, later) => if ShouldServiceEvents(q, options, now) { RemoveKeepsValid(q, BatchLength(q.events, options)); }
    case _ =>
  }

  ghost function StepOf(options: Options): (Queue, Event, Queue) -> bool
  {
    (q, ev, r) => Enabled(q, ev) && r == Next(q, options, ev)
  }

  ghost function InitOf(): Queue -> bool
  {
    q => q == EMPTY
  }

  lemma StepKeepsValid(options: Options)
    ensures forall q :: InitOf()(q) ==> Valid(q)
    ensures forall q, ev, r :: Valid(q) && StepOf(options)(q, ev, r) ==> Valid(r)
  {
    forall q, ev, r | Valid(q) && StepOf(options)(q, ev, r)
      ensures Valid(r)
    {
      NextKeepsValid(q, options, ev);
    }
  }

  /** Over any run the id set is exact, each session has one transient event at most, every accepted
      event is committed, pending or superseded, and queued work is never left without a pump or timer. */
  lemma TraceIsValid(options: Options, states: seq<Queue>, events: seq<Event>, i: nat)
    requires IsRun(InitOf(), StepOf(options), states, events) && i < |states|
    ensures Valid(states[i])
  {
    StepKeepsValid(options);
    HoldsThroughout(InitOf(), StepOf(options), Valid, states, events, i);
  }

  // ---------------------------------------------------------------- the newest status of a session

  /** Event `a` is superseded by `b`: both report only a status, of one session. */
  predicate Supersedes(b: EventJob, a: EventJob)
  {
    b.transient && a.transient && b.session == a.session
  }

  /** A new event is queued: in the place of the status that it supersedes, with the queue time of that
      one, or else at the end. Every other event keeps its place. */
  lemma NewEventIsQueued(q: Queue, job: EventJob, at: int)
    requires Valid(q) && job.id !in q.ids
    ensures var r := EnqueueEvent(q, job, at);
      |r.events| >= |q.events|
      && (forall i :: 0 <= i < |q.events| ==>
            r.events[i] == if Supersedes(job, q.events[i].job) then Queued(job, q.events[i].queuedAt) else q.events[i])
      && (if exists e <- q.events :: Supersedes(job, e.job) then |r.events| == |q.events|
          else r.events == q.events + [Queued(job, at)])
      && exists e <- r.events :: e.job == job
  {
    var r := EnqueueEvent(q, job, at);
    var i := TransientIndex(q.events, job.session);
    if job.transient && i < |q.events| {
      assert q.events[i] in q.events && r.events[i] in r.events;
    } else {
      assert r.events[|q.events|] in r.events;
    }
  }

  /** A status of this session is accepted. */
  predicate AcceptsStatus(q: Queue, ev: Event, session: SessionKey)
  {
    ev.EventCame? && ev.job.id !in q.ids && ev.job.transient && ev.job.session == session
  }

  /** One step: what is not taken keeps its event, unless a newer status of its session comes in. */
  lemma EventStands(q: Queue, options: Options, ev: Event, i: nat)
    requires Valid(q) && Enabled(q, ev) && TakenBy(q, options, ev) <= i < |q.events|
    ensures var r := Next(q, options, ev);
      var place := i - TakenBy(q, options, ev);
      place < |r.events|
      && r.events[place].job == if q.events[i].job.transient && AcceptsStatus(q, ev, q.events[i].job.session) then ev.job else q.events[i].job
  {
    if ev.EventCame? && ev.job.id !in q.ids { NewEventIsQueued(q, ev.job, ev.at); }
  }

  /** Over every run: the status that was accepted last for a session stands in the queue until a batch
      takes it. Its place is `place` when it comes, and `PlaceAfter` follows that place. */
  lemma {:induction false} NewestStatusStands(options: Options, states: seq<Queue>, events: seq<Event>, j: nat, place: nat, n: nat)
    requires IsRun(InitOf(), StepOf(options), states, events) && j < n <= |events|
    requires events[j].EventCame? && AcceptsStatus(states[j], events[j], events[j].job.session)
    requires place < |states[j + 1].events| && states[j + 1].events[place].job == events[j].job
    requires forall k :: j < k < n ==> !AcceptsStatus(states[k], events[k], events[j].job.session)
    ensures var left := PlaceAfter(options, states, events, place, j + 1, n);
      left.Some? ==> left.value < |states[n].events| && states[n].events[left.value].job == events[j].job
    decreases n
  {
    if n > j + 1 {
      var k := n - 1;
      NewestStatusStands(options, states, events, j, place, k);
      TraceIsValid(options, states, events, k);
      assert StepOf(options)(states[k], events[k], states[k + 1]);
      var left := PlaceAfter(options, states, events, place, j + 1, k);
      if left.Some? && left.value >= TakenBy(states[k], options, events[k]) { EventStands(states[k], options, events[k], left.value); }
    }
  }

  // ---------------------------------------------------------------- bounded waiting

  /** Coalescing keeps the place and the queue time: what stands at an index after a step stood there,
      or at the index plus the number of events taken. */
  lemma PlacesAreKept(q: Queue, options: Options, ev: Event, i: nat)
    requires Enabled(q, ev) && i < |q.events| && i >= TakenBy(q, options, ev)
    ensures var r := Next(q, options, ev);
      var place := i - TakenBy(q, options, ev);
      place < |r.events| && r.events[place].queuedAt == q.events[i].queuedAt
      && (r.events[place].job == q.events[i].job
          || (ev.EventCame? && r.events[place].job == ev.job && q.events[i].job.transient && q.events[i].job.session == ev.job.session))
  {
  }

  /** How many events a step takes off the front. */
  function TakenBy(q: Queue, options: Options, ev: Event): nat
  {
    match ev
    case Worked(now, _) => if ShouldServiceEvents(q, options, now) then BatchLength(q.events, options) else 0
    case Committed(now, ids) => if Commits(q, options, now, ids) then |ids| else 0
    case _ => 0
  }

  predicate RunsUser(q: Queue, options: Options, ev: Event)
  {
    ev.Worked? && Choose(q, options, ev.now) == User
  }

  predicate RunsBatch(q: Queue, options: Options, ev: Event)
  {
    TakenBy(q, options, ev) > 0
  }

  /** The place of the event that stood at `place`, after the events of a run; None once it is taken. */
  function PlaceAfter(options: Options, states: seq<Queue>, events: seq<Event>, place: nat, from: nat, n: nat): Option<nat>
    requires from <= n <= |events| && |states| == |events| + 1
    decreases n
  {
    if n == from then Some(place)
    else
      var before := PlaceAfter(options, states, events, place, from, n - 1);
      if before.None? then None
      else
        var taken := TakenBy(states[n - 1], options, events[n - 1]);
        if before.value < taken then None else Some(before.value - taken)
  }

  function UsersRun(options: Options, states: seq<Queue>, events: seq<Event>, from: nat, n: nat): nat
    requires from <= n <= |events| && |states| == |events| + 1
    decreases n
  {
    if n == from then 0
    else UsersRun(options, states, events, from, n - 1) + if RunsUser(states[n - 1], options, events[n - 1]) then 1 else 0
  }

  function BatchesRun(options: Options, states: seq<Queue>, events: seq<Event>, from: nat, n: nat): nat
    requires from <= n <= |events| && |states| == |events| + 1
    decreases n
  {
    if n == from then 0
    else BatchesRun(options, states, events, from, n - 1) + if RunsBatch(states[n - 1], options, events[n - 1]) then 1 else 0
  }

  /** The users that came, in order. */
  function UsersCame(events: seq<Event>, n: nat): seq<UserId>
    requires n <= |events|
  {
    if n == 0 then [] else UsersCame(events, n - 1) + if events[n - 1].UserCame? then [events[n - 1].user] else []
  }

  lemma UsersStep(q: Queue, options: Options, ev: Event, came: seq<UserId>, served: nat)
    requires Enabled(q, ev) && served <= |came| && q.users == came[served..]
    ensures var all := came + if ev.UserCame? then [ev.user] else [];
      var more := served + if RunsUser(q, options, ev) then 1 else 0;
      more <= |all| && Next(q, options, ev).users == all[more..]
  {
    var all := came + if ev.UserCame? then [ev.user] else [];
    if ev.UserCame? {
      assert all[served..] == came[served..] + [ev.user];
    } else {
      assert all == came;
      if RunsUser(q, options, ev) { assert came[served..][1..] == came[served + 1..]; }
    }
  }

  /** Over every run: no user is lost, doubled or overtaken by another. Those still waiting are the ones that
      came last, and every one before them has had its job. */
  lemma {:induction false} UsersServedInOrder(options: Options, states: seq<Queue>, events: seq<Event>, n: nat)
    requires IsRun(InitOf(), StepOf(options), states, events) && n <= |events|
    ensures var served := UsersRun(options, states, events, 0, n);
      served <= |UsersCame(events, n)| && states[n].users == UsersCame(events, n)[served..]
  {
    if n > 0 {
      UsersServedInOrder(options, states, events, n - 1);
      assert StepOf(options)(states[n - 1], events[n - 1], states[n - 1 + 1]);
      UsersStep(states[n - 1], options, events[n - 1], UsersCame(events, n - 1), UsersRun(options, states, events, 0, n - 1));
    }
  }

  /** The batches that `BatchesRun` counts are those that commit events. */
  lemma {:induction false} BatchesCommit(options: Options, states: seq<Queue>, events: seq<Event>, from: nat, n: nat)
    requires IsRun(InitOf(), StepOf(options), states, events) && from <= n <= |events|
    ensures states[from].committed + BatchesRun(options, states, events, from, n) <= states[n].committed
    ensures BatchesRun(options, states, events, from, n) == 0 ==> states[n].committed == states[from].committed
    decreases n
  {
    if n > from {
      BatchesCommit(options, states, events, from, n - 1);
      assert StepOf(options)(states[n - 1], events[n - 1], states[n - 1 + 1]);
      CommittedStep(states[n - 1], options, events[n - 1]);
    }
  }

  lemma CommittedStep(q: Queue, options: Options, ev: Event)
    requires Enabled(q, ev)
    ensures Next(q, options, ev).committed == q.committed + TakenBy(q, options, ev)
  {
  }

  /** One step never raises what the waiting event still has to let pass. */
  lemma WaitingFalls(q: Queue, options: Options, ev: Event, place: nat)
    requires Enabled(q, ev) && place < |q.events| && options.maxBatchEvents >= 1 && place >= TakenBy(q, options, ev)
    ensures var r := Next(q, options, ev);
      var left := place - TakenBy(q, options, ev);
      left < |r.events|
      && 5 * left + Max(0, 5 - r.consecutiveUsers) + (if RunsUser(q, options, ev) then 1 else 0) <= 5 * place + Max(0, 5 - q.consecutiveUsers)
  {
    PlacesAreKept(q, options, ev, place);
    BatchIsLongestPrefix(q.events, options);
  }

  /** However many users keep coming, an event at index `place` waits for at most 5 (place + 1) more
      user jobs and `place` other batches. */
  lemma {:induction false} BoundedWaiting(options: Options, states: seq<Queue>, events: seq<Event>, place: nat, from: nat, n: nat)
    requires IsRun(InitOf(), StepOf(options), states, events) && from <= n <= |events|
    requires place < |states[from].events| && options.maxBatchEvents >= 1
    requires PlaceAfter(options, states, events, place, from, n).Some?
    ensures var left := PlaceAfter(options, states, events, place, from, n).value;
      left < |states[n].events|
      && UsersRun(options, states, events, from, n) + 5 * left + Max(0, 5 - states[n].consecutiveUsers) <= 5 * (place + 1)
      && BatchesRun(options, states, events, from, n) + left <= place
    ensures UsersRun(options, states, events, from, n) <= 5 * (place + 1)
    decreases n
  {
    if n > from {
      BoundedWaiting(options, states, events, place, from, n - 1);
      var k := n - 1;
      assert StepOf(options)(states[k], events[k], states[k + 1]);
      WaitingFalls(states[k], options, events[k], PlaceAfter(options, states, events, place, from, k).value);
    }
  }

  /** Whose turn it is while a user waits: a batch comes first only for an event that has reached the age
      limit, or after five users in a row. */
  lemma UserComesFirst(q: Queue, options: Options, now: int)
    requires q.users != []
    ensures Choose(q, options, now) == User <==>
      q.events == [] || (q.consecutiveUsers < 5 && now - q.events[0].queuedAt < options.maxEventAge)
  {
  }

  /** The user jobs that ran since the pump last ran a batch. */
  function UsersInRow(options: Options, states: seq<Queue>, events: seq<Event>, n: nat): nat
    requires n <= |events| && |states| == |events| + 1
  {
    if n == 0 then 0
    else if RunsUser(states[n - 1], options, events[n - 1]) then UsersInRow(options, states, events, n - 1) + 1
    else if events[n - 1].Worked? && Choose(states[n - 1], options, events[n - 1].now).Batch? then 0
    else UsersInRow(options, states, events, n - 1)
  }

  lemma CounterMoves(q: Queue, options: Options, ev: Event)
    requires Enabled(q, ev)
    ensures Next(q, options, ev).consecutiveUsers ==
      if RunsUser(q, options, ev) then q.consecutiveUsers + 1
      else if ev.Worked? && Choose(q, options, ev.now).Batch? then 0
      else q.consecutiveUsers
  {
  }

  lemma {:induction false} CounterIsRow(options: Options, states: seq<Queue>, events: seq<Event>, n: nat)
    requires IsRun(InitOf(), StepOf(options), states, events) && n <= |events|
    ensures states[n].consecutiveUsers == UsersInRow(options, states, events, n)
  {
    if n > 0 {
      CounterIsRow(options, states, events, n - 1);
      assert StepOf(options)(states[n - 1], events[n - 1], states[n - 1 + 1]);
      CounterMoves(states[n - 1], options, events[n - 1]);
    }
  }

  /** Over every run: a batch whose oldest event is below the age limit is run before a waiting user only
      when the last five jobs or more were users. */
  lemma BatchBeforeUser(options: Options, states: seq<Queue>, events: seq<Event>, n: nat)
    requires IsRun(InitOf(), StepOf(options), states, events) && n < |events|
    requires events[n].Worked? && states[n].users != [] && states[n].events != []
    requires events[n].now - states[n].events[0].queuedAt < options.maxEventAge
    ensures Choose(states[n], options, events[n].now).Batch? <==> UsersInRow(options, states, events, n) >= 5
  {
    CounterIsRow(options, states, events, n);
    UserComesFirst(states[n], options, events[n].now);
  }

  /** The other side of the bound: after a batch the waiting users get their turn, unless the oldest
      event that is left has already reached the age limit. */
  lemma UsersFollowBatch(q: Queue, options: Options, now: int, later: int, after: int)
    requires Choose(q, options, now).Batch? && q.users != []
    ensures var r := Work(q, options, now, later);
      Choose(r, options, after) == User <==> r.events == [] || after - r.events[0].queuedAt < options.maxEventAge
  {
  }

  /** A batch that leaves events behind leaves the window timer armed for them, and one that does not
      leaves none; the pump goes on either way. */
  lemma BatchRearms(q: Queue, options: Options, now: int, later: int)
    requires Choose(q, options, now).Batch? && q.running
    ensures var r := Work(q, options, now, later);
      r.running && r.consecutiveUsers == 0 && (r.timer <==> r.events != [])
  {
  }

  /** The pump and the peek agree on when a batch is due: without users and without a run of users to make
      up for, the pump takes one exactly when a peek would be offered one. */
  lemma PumpAgreesWithPeek(q: Queue, options: Options, now: int)
    requires q.users == [] && q.consecutiveUsers < MAX_CONSECUTIVE_USERS && q.periods < MAX_PERIODS
    ensures Choose(q, options, now).Batch? <==> Eligible(q, options, now)
  {
  }

  /** An event that comes after five users in a row is served at once: the pump runs and takes a batch.
      With no users waiting and fewer before it, it waits for its window. */
  lemma EventAfterUsers(q: Queue, options: Options, job: EventJob, at: int, now: int)
    requires Valid(q) && job.id !in q.ids
    requires job.transient ==> TransientIndex(q.events, job.session) == |q.events|
    ensures var r := EnqueueEvent(q, job, at);
      if q.consecutiveUsers >= MAX_CONSECUTIVE_USERS then r.running && Choose(r, options, now).Batch?
      else r.running == q.running && (r.timer || r.running)
  {
  }

  /** A commit of what was peeked takes those events and no other, and restarts the count of periods; a
      commit of anything else changes nothing. */
  lemma CommitIsAllOrNothing(q: Queue, options: Options, now: int, ids: seq<EventId>)
    requires Valid(q)
    ensures var r := Commit(q, options, now, ids);
      r == q || (r.periods == 0 && |ids| == |q.events| - |r.events| && q.events[|ids|..] == r.events
                 && (forall i :: 0 <= i < |ids| ==> ids[i] == q.events[i].job.id && ids[i] !in r.ids)
                 && Fits(q.events, options, |ids|) && r.committed == q.committed + |ids|)
    ensures !Commits(q, options, now, ids) ==> Commit(q, options, now, ids) == q
  {
    if Commits(q, options, now, ids) {
      BatchIsLongestPrefix(q.events, options);
      forall i | 0 <= i < |ids|
        ensures ids[i] !in Remove(q, |ids|).ids
      {
        assert q.events[..|ids|][i] in q.events[..|ids|];
      }
    }
  }

  /** A pump that finds nothing to do ends: for good when the queue is empty, with no timer left, and else with
      the window timer armed; it goes on at once if a batch has become due by the time it looks again. */
  lemma IdlePumpEnds(q: Queue, options: Options, now: int, later: int)
    requires q.users == []
    requires q.events != [] ==> q.consecutiveUsers < 5 && now - q.events[0].queuedAt < options.maxEventAge
                                && now - q.events[0].queuedAt < options.batchWindow
    ensures var r := Work(q, options, now, later);
      r.events == q.events && r.users == [] && r.consecutiveUsers == q.consecutiveUsers
      && (r.timer <==> q.events != [])
      && (r.running <==> q.events != [] && (later - q.events[0].queuedAt >= options.maxEventAge || later - q.events[0].queuedAt >= options.batchWindow))
  {
  }

  /** What sets the pump going: a user, a timer, or an event that finds users waiting or five of them served
      in a row. The timer that has fired is spent. */
  lemma PumpSetGoing(q: Queue, options: Options, ev: Event)
    requires Enabled(q, ev) && !ev.Worked?
    ensures Next(q, options, ev).running <==>
      q.running || ev.UserCame? || ev.TimerFired?
      || (ev.EventCame? && |Next(q, options, ev).events| > |q.events| && (q.users != [] || q.consecutiveUsers >= 5))
    ensures ev.TimerFired? ==> !Next(q, options, ev).timer
    ensures ev.EventCame? && ev.job.id !in q.ids ==> Next(q, options, ev).timer
    ensures ev.UserCame? ==> Next(q, options, ev).users == q.users + [ev.user]
  {
  }

  /** While users wait, every turn of the pump runs a job, so the bound above is reached. */
  lemma PumpNeverIdles(q: Queue, options: Options, now: int)
    requires q.users != [] && options.maxBatchEvents >= 1
    ensures Choose(q, options, now) == User || (Choose(q, options, now).Batch? && Choose(q, options, now).count >= 1)
  {
    BatchIsLongestPrefix(q.events, options);
  }
}

/**
 `createEndpointReadyBuffer`: ready events of endpoints wait while startup is not accepting, and
 then each endpoint has at most one recovery, which runs again for events that come during it.
 `owed` holds the endpoints with a ready event that no recovery has begun after.
 */
module ReadyBuffer {
  import opened Runs

  type EndpointId = nat
  type TaskId = nat

  /** A recovery in `recoveries`: put behind a resolved promise, or inside `recover`. `drains`
      counts the drains awaiting it. */
  datatype Task = Task(endpoint: EndpointId, recovering: bool, dirty: bool, drains: nat)

  datatype Buffer = Buffer(
    pending: set<EndpointId>,
    recoveries: map<EndpointId, TaskId>,
    tasks: map<TaskId, Task>,
    nextTask: TaskId,
    rejected: multiset<EndpointId>,
    accepting: bool,
    stopped: bool,
    maxPending: nat,
    owed: set<EndpointId>)

  function RequestRecovery(b: Buffer, e: EndpointId, drains: nat): Buffer
  {
    if e in b.recoveries && b.recoveries[e] in b.tasks then
      var task := b.tasks[b.recoveries[e]];
      b.(tasks := b.tasks[b.recoveries[e] := task.(dirty := true, drains := task.drains + drains)])
    else
      b.(recoveries := b.recoveries[e := b.nextTask], tasks := b.tasks[b.nextTask := Task(e, false, false, drains)],
         nextTask := b.nextTask + 1)
  }

  /** The caller is told that too many events are pending. */
  predicate Rejects(b: Buffer, e: EndpointId)
  {
    !b.stopped && !b.accepting && e !in b.pending && |b.pending| >= b.maxPending
  }

  function Ready(b: Buffer, e: EndpointId): Buffer
  {
    if b.stopped || Rejects(b, e) then b
    else if b.accepting then RequestRecovery(b.(pending := b.pending - {e}, owed := b.owed + {e}), e, 0)
    else b.(pending := b.pending + {e}, owed := b.owed + {e})
  }

  /** The task's promise callback: a stopped buffer recovers nothing. */
  function Begin(b: Buffer, id: TaskId): Buffer
    requires id in b.tasks
  {
    var task := b.tasks[id];
    if b.stopped then b.(recoveries := b.recoveries - {task.endpoint}, tasks := b.tasks - {id})
    else b.(tasks := b.tasks[id := task.(recovering := true, dirty := false)], owed := b.owed - {task.endpoint})
  }

  function End(b: Buffer, id: TaskId, ok: bool): Buffer
    requires id in b.tasks
  {
    var task := b.tasks[id];
    var e := task.endpoint;
    if task.dirty && b.accepting && !b.stopped then
      b.(tasks := b.tasks[id := task.(dirty := false)], owed := b.owed - {e})
    else EndOver(b, id, ok)
  }

  /** The recovery is over: what still needs one goes back to pending. */
  function EndOver(b: Buffer, id: TaskId, ok: bool): Buffer
    requires id in b.tasks
  {
    var task := b.tasks[id];
    var e := task.endpoint;
    b.(pending := if !b.stopped && (task.dirty || !ok) then b.pending + {e} else b.pending,
       recoveries := if e in b.recoveries && b.recoveries[e] == id then b.recoveries - {e} else b.recoveries,
       tasks := b.tasks - {id},
       rejected := if ok then b.rejected else b.rejected[e := b.rejected[e] + task.drains])
  }

  /** One awaiting drain sees its recovery rejected. */
  function Reject(b: Buffer, e: EndpointId): Buffer
    requires b.rejected[e] > 0
  {
    b.(rejected := b.rejected[e := b.rejected[e] - 1], pending := if b.stopped then b.pending else b.pending + {e})
  }

  function DrainEach(b: Buffer, order: seq<EndpointId>): Buffer
  {
    if order == [] then b
    else
      var last := |order| - 1;
      var before := DrainEach(b, order[..last]);
      RequestRecovery(before.(pending := before.pending - {order[last]}), order[last], 1)
  }

  predicate Lists(order: seq<EndpointId>, pending: set<EndpointId>)
  {
    (forall e <- order :: e in pending) && (forall e <- pending :: e in order)
    && forall i, j :: 0 <= i < j < |order| ==> order[i] != order[j]
  }

  datatype Event =
    | BecameReady(e: EndpointId)
    | Acknowledged(e: EndpointId)
    | Paused
    | Drained(order: seq<EndpointId>)
    | Began(id: TaskId)
    | Ended(id: TaskId, ok: bool)
    | DrainRejected(e: EndpointId)
    | Stopped

  predicate Enabled(b: Buffer, ev: Event)
  {
    match ev
    case Drained(order) => Lists(order, b.pending)
    case Began(id) => id in b.tasks && !b.tasks[id].recovering
    case Ended(id, _) => id in b.tasks && b.tasks[id].recovering
    case DrainRejected(e) => b.rejected[e] > 0
    case _ => true
  }

  function Next(b: Buffer, ev: Event): Buffer
    requires Enabled(b, ev)
  {
    match ev
    case BecameReady(e) => Ready(b, e)
    case Acknowledged(e) => b.(pending := b.pending - {e}, owed := b.owed - {e})
    case Paused => if b.stopped then b else b.(accepting := false)
    case Drained(order) => if b.stopped then b else DrainEach(b.(accepting := true), order)
    case Began(id) => Begin(b, id)
    case Ended(id, ok) => End(b, id, ok)
    case DrainRejected(e) => Reject(b, e)
    case Stopped => b.(stopped := true, accepting := false, pending := {}, owed := {})
  }

  ghost predicate Step(b: Buffer, ev: Event, c: Buffer)
  {
    Enabled(b, ev) && c == Next(b, ev)
  }

  ghost predicate Init(b: Buffer)
  {
    b == Buffer({}, map[], map[], 0, multiset{}, false, false, b.maxPending, {})
  }

  // ---------------------------------------------------------------- the invariant

  /** `recoveries` and the live tasks are each other's inverse. */
  ghost predicate Tracked(b: Buffer)
  {
    (forall e :: e in b.recoveries ==> b.recoveries[e] in b.tasks && b.tasks[b.recoveries[e]].endpoint == e)
    && (forall id :: id in b.tasks ==>
         id < b.nextTask && b.tasks[id].endpoint in b.recoveries && b.recoveries[b.tasks[id].endpoint] == id)
  }

  predicate Scheduled(b: Buffer, e: EndpointId)
  {
    e in b.recoveries && b.recoveries[e] in b.tasks
    && (!b.tasks[b.recoveries[e]].recovering || b.tasks[b.recoveries[e]].dirty)
  }

  ghost predicate Covered(b: Buffer)
  {
    forall e :: e in b.owed ==> !b.stopped && (e in b.pending || Scheduled(b, e))
  }

  ghost predicate Inv(b: Buffer)
  {
    Tracked(b) && Covered(b)
  }

  lemma RequestFacts(b: Buffer, e: EndpointId, drains: nat)
    requires Tracked(b)
    ensures var c := RequestRecovery(b, e, drains);
      Tracked(c) && Scheduled(c, e) && c == b.(recoveries := c.recoveries, tasks := c.tasks, nextTask := c.nextTask)
      && forall other :: Scheduled(b, other) ==> Scheduled(c, other)
  {
  }

  lemma ReadyKeepsInv(b: Buffer, e: EndpointId)
    requires Inv(b)
    ensures Inv(Ready(b, e))
  {
    RequestFacts(b.(pending := b.pending - {e}, owed := b.owed + {e}), e, 0);
  }

  lemma BeginKeepsInv(b: Buffer, id: TaskId)
    requires Inv(b) && id in b.tasks
    ensures Inv(Begin(b, id))
  {
  }

  lemma EndKeepsInv(b: Buffer, id: TaskId, ok: bool)
    requires Inv(b) && id in b.tasks && b.tasks[id].recovering
    ensures Inv(End(b, id, ok))
  {
    var task := b.tasks[id];
    var c := End(b, id, ok);
    forall e | e in c.owed
      ensures !c.stopped && (e in c.pending || Scheduled(c, e))
    {
      if e !in b.pending && e != task.endpoint { assert Scheduled(b, e); }
    }
  }

  lemma {:induction false} DrainKeepsInv(b: Buffer, order: seq<EndpointId>)
    requires Inv(b) && !b.stopped
    ensures Inv(DrainEach(b, order)) && !DrainEach(b, order).stopped
    ensures forall e :: e in order ==> Scheduled(DrainEach(b, order), e)
  {
    if order != [] {
      var last := |order| - 1;
      DrainKeepsInv(b, order[..last]);
      var before := DrainEach(b, order[..last]);
      RequestFacts(before.(pending := before.pending - {order[last]}), order[last], 1);
      assert order == order[..last] + [order[last]];
    }
  }

  lemma NextKeepsInv(b: Buffer, ev: Event)
    requires Inv(b) && Enabled(b, ev)
    ensures Inv(Next(b, ev))
  {
    match ev
    case BecameReady(e) => ReadyKeepsInv(b, e);
    case Drained(order) => if !b.stopped { DrainKeepsInv(b.(accepting := true), order); }
    case Began(id) => BeginKeepsInv(b, id);
    case Ended(id, ok) => EndKeepsInv(b, id, ok);
    case _ => PlainKeepsInv(b, ev);
  }

  lemma PlainKeepsInv(b: Buffer, ev: Event)
    requires Inv(b) && Enabled(b, ev) && (ev.Acknowledged? || ev.Paused? || ev.DrainRejected? || ev.Stopped?)
    ensures Inv(Next(b, ev))
  {
    var c := Next(b, ev);
    assert c.recoveries == b.recoveries && c.tasks == b.tasks;
    assert forall e :: Scheduled(c, e) <==> Scheduled(b, e);
  }

  lemma StepKeepsInv()
    ensures forall b :: Init(b) ==> Inv(b)
    ensures forall b, ev, c :: Inv(b) && Step(b, ev, c) ==> Inv(c)
  {
    forall b, ev, c | Inv(b) && Step(b, ev, c)
      ensures Inv(c)
    {
      NextKeepsInv(b, ev);
    }
  }

  lemma TraceKeepsInv(states: seq<Buffer>, events: seq<Event>, i: nat)
    requires IsRun(Init, Step, states, events) && i < |states|
    ensures Inv(states[i])
  {
    StepKeepsInv();
    HoldsThroughout(Init, Step, Inv, states, events, i);
  }

  // ---------------------------------------------------------------- what runs guarantee

  /** An endpoint never has two recoveries at once. */
  lemma OneRecoveryPerEndpoint(states: seq<Buffer>, events: seq<Event>, i: nat, a: TaskId, b: TaskId)
    requires IsRun(Init, Step, states, events) && i < |states|
    requires a in states[i].tasks && b in states[i].tasks && states[i].tasks[a].endpoint == states[i].tasks[b].endpoint
    ensures a == b
  {
    TraceKeepsInv(states, events, i);
  }

  /** This step begins a recovery of `e`, acknowledges it, or stops the buffer. */
  predicate Answers(b: Buffer, ev: Event, e: EndpointId)
  {
    match ev
    case Acknowledged(other) => other == e
    case Began(id) => id in b.tasks && b.tasks[id].endpoint == e && !b.stopped
    case Ended(id, _) => id in b.tasks && b.tasks[id].endpoint == e && b.tasks[id].dirty && b.accepting && !b.stopped
    case Stopped => true
    case _ => false
  }

  lemma {:induction false} DrainOwesSame(b: Buffer, order: seq<EndpointId>)
    ensures DrainEach(b, order).owed == b.owed
  {
    if order != [] { DrainOwesSame(b, order[..|order| - 1]); }
  }

  lemma OwedUntilAnswered(b: Buffer, ev: Event, e: EndpointId)
    requires Enabled(b, ev) && e in b.owed && !Answers(b, ev, e)
    ensures e in Next(b, ev).owed
  {
    if ev.Drained? && !b.stopped { DrainOwesSame(b.(accepting := true), ev.order); }
  }

  /** A ready event that was taken stays pending, or has a recovery scheduled after it, until a
      recovery begins, it is acknowledged, or the buffer stops. */
  lemma {:induction false} ReadyIsNotLost(states: seq<Buffer>, events: seq<Event>, from: nat, until: nat, e: EndpointId)
    requires IsRun(Init, Step, states, events) && from < until < |states|
    requires events[from] == BecameReady(e) && !states[from].stopped
    requires states[from].accepting || e in states[from].pending || |states[from].pending| < states[from].maxPending
    requires forall k :: from < k < until ==> !Answers(states[k], events[k], e)
    ensures e in states[until].owed && (e in states[until].pending || Scheduled(states[until], e))
    decreases until
  {
    TraceKeepsInv(states, events, until);
    var k := until - 1;
    assert Step(states[k], events[k], states[k + 1]);
    if k > from {
      ReadyIsNotLost(states, events, from, k, e);
      OwedUntilAnswered(states[k], events[k], e);
    }
  }

  /** A scheduled recovery does begin: a scheduled endpoint's task has one next step, and unless
      the buffer has stopped that step begins a recovery or leaves the endpoint pending. */
  lemma ScheduledBegins(b: Buffer, e: EndpointId, ok: bool)
    requires Inv(b) && Scheduled(b, e) && !b.stopped
    ensures var id := b.recoveries[e];
      if !b.tasks[id].recovering then Enabled(b, Began(id)) && Answers(b, Began(id), e)
      else Enabled(b, Ended(id, ok)) && (Answers(b, Ended(id, ok), e) || e in Next(b, Ended(id, ok)).pending)
  {
  }

  /** What the end of a recovery leaves: with a ready event behind it, it begins again for all of them at
      once while the buffer accepts; otherwise it is over, and its endpoint is pending again exactly if it
      failed or such an event is still to be served. */
  lemma EndOfRecovery(b: Buffer, id: TaskId, ok: bool)
    requires Inv(b) && id in b.tasks && b.tasks[id].recovering && !b.stopped
    ensures var c := Next(b, Ended(id, ok));
      var e := b.tasks[id].endpoint;
      if b.tasks[id].dirty && b.accepting then
        c.pending == b.pending && c.recoveries == b.recoveries && e !in c.owed && !Scheduled(c, e)
      else
        e !in c.recoveries && id !in c.tasks
        && c.pending == if ok && !b.tasks[id].dirty then b.pending else b.pending + {e}
  {
  }

  /** Whether the buffer accepts, and which endpoints are pending, after any step: a ready event is pending
      while the buffer does not accept and has room, an acknowledged one is not, a drain takes all of them,
      and a recovery that is over leaves its endpoint pending if it failed or is still owed another. */
  lemma PendingAfter(b: Buffer, ev: Event, e: EndpointId)
    requires Enabled(b, ev)
    ensures e in Next(b, ev).pending <==>
      match ev
      case BecameReady(x) =>
        if b.accepting && !b.stopped then e in b.pending && e != x
        else e in b.pending || (e == x && !b.stopped && |b.pending| < b.maxPending)
      case Acknowledged(x) => e in b.pending && e != x
      case Drained(_) => b.stopped && e in b.pending
      case Ended(id, ok) =>
        e in b.pending || (e == b.tasks[id].endpoint && !b.stopped && if b.tasks[id].dirty then !b.accepting else !ok)
      case DrainRejected(x) => e in b.pending || (e == x && !b.stopped)
      case Stopped => false
      case _ => e in b.pending
    ensures !b.stopped ==> Next(b, ev).accepting == if ev == Paused || ev == Stopped then false else b.accepting || ev.Drained?
    ensures Next(b, ev).stopped == (b.stopped || ev == Stopped)
  {
    match ev
    case Drained(order) => if !b.stopped { DrainTakes(b.(accepting := true), order); }
    case _ =>
  }

  lemma {:induction false} DrainTakes(b: Buffer, order: seq<EndpointId>)
    ensures var c := DrainEach(b, order);
      c.accepting == b.accepting && c.stopped == b.stopped && c.rejected == b.rejected
      && forall e :: e in c.pending <==> e in b.pending && e !in order
  {
    if order != [] {
      DrainTakes(b, order[..|order| - 1]);
      assert order == order[..|order| - 1] + [order[|order| - 1]];
    }
  }

  /** A drain leaves a recovery scheduled for every endpoint that was pending. */
  lemma DrainSchedules(b: Buffer, order: seq<EndpointId>, e: EndpointId)
    requires Inv(b) && !b.stopped && Enabled(b, Drained(order)) && e in b.pending
    ensures Scheduled(Next(b, Drained(order)), e)
  {
    DrainKeepsInv(b.(accepting := true), order);
  }

  /** A task that the stop overtakes ends with its next step, and no recovery begins again. */
  lemma StoppedTaskEnds(b: Buffer, id: TaskId, ok: bool)
    requires Inv(b) && b.stopped && id in b.tasks
    ensures var ev := if b.tasks[id].recovering then Ended(id, ok) else Began(id);
      Enabled(b, ev) && Next(b, ev).tasks == b.tasks - {id} && Next(b, ev).recoveries == b.recoveries - {b.tasks[id].endpoint}
  {
  }

  /** The drains that await the recovery of an endpoint. */
  function Awaiting(b: Buffer, e: EndpointId): nat
  {
    if e in b.recoveries && b.recoveries[e] in b.tasks then b.tasks[b.recoveries[e]].drains else 0
  }

  lemma RequestAwaits(b: Buffer, x: EndpointId, drains: nat, e: EndpointId)
    requires Tracked(b)
    ensures Awaiting(RequestRecovery(b, x, drains), e) == Awaiting(b, e) + if e == x then drains else 0
  {
    if e in b.recoveries && e != x { assert b.recoveries[e] != b.nextTask; }
  }

  predicate Distinct(order: seq<EndpointId>)
  {
    forall i, j :: 0 <= i < j < |order| ==> order[i] != order[j]
  }

  lemma {:induction false} DrainAwaits(b: Buffer, order: seq<EndpointId>, e: EndpointId)
    requires Tracked(b) && Distinct(order)
    ensures Tracked(DrainEach(b, order))
    ensures Awaiting(DrainEach(b, order), e) == Awaiting(b, e) + if e in order then 1 else 0
  {
    if order != [] {
      var last := |order| - 1;
      DrainAwaits(b, order[..last], e);
      var before := DrainEach(b, order[..last]);
      var c := before.(pending := before.pending - {order[last]});
      assert Awaiting(c, e) == Awaiting(before, e);
      RequestFacts(c, order[last], 1);
      RequestAwaits(c, order[last], 1, e);
      LastIsNew(order, e);
    }
  }

  lemma LastIsNew(order: seq<EndpointId>, e: EndpointId)
    requires Distinct(order) && order != []
    ensures e in order <==> e in order[..|order| - 1] || e == order[|order| - 1]
    ensures order[|order| - 1] !in order[..|order| - 1]
  {
    assert order == order[..|order| - 1] + [order[|order| - 1]];
  }

  /** This step ends the recovery of `e` for good. */
  predicate Concludes(b: Buffer, ev: Event, e: EndpointId)
  {
    match ev
    case Began(id) => id in b.tasks && b.tasks[id].endpoint == e && b.stopped
    case Ended(id, _) => id in b.tasks && b.tasks[id].endpoint == e && (!b.tasks[id].dirty || !b.accepting || b.stopped)
    case _ => false
  }

  /** A drain awaits one recovery of every endpoint that it takes, and when that one is over each of the
      drains that await it is rejected exactly if it failed. */
  lemma DrainsAreAnswered(b: Buffer, ev: Event, e: EndpointId)
    requires Inv(b) && Enabled(b, ev)
    ensures var c := Next(b, ev);
      Awaiting(c, e) == (if Concludes(b, ev, e) then 0
                         else Awaiting(b, e) + if ev.Drained? && !b.stopped && e in b.pending then 1 else 0)
    ensures var c := Next(b, ev);
      c.rejected[e] == (if ev == DrainRejected(e) then b.rejected[e] - 1
                        else b.rejected[e] + if Concludes(b, ev, e) && ev.Ended? && !ev.ok then Awaiting(b, e) else 0)
  {
    match ev
    case Drained(order) =>
      if !b.stopped {
        DrainAwaits(b.(accepting := true), order, e);
        DrainTakes(b.(accepting := true), order);
      }
    case BecameReady(x) => if b.accepting { RequestFacts(b.(pending := b.pending - {x}, owed := b.owed + {x}), x, 0); }
    case _ =>
  }

  predicate Halted(b: Buffer)
  {
    b.stopped && b.pending == {} && b.owed == {}
  }

  /** A recovery that begins: a new call of `recover`. */
  predicate BeginsRecovery(b: Buffer, ev: Event)
    requires Enabled(b, ev)
  {
    (ev.Began? && !b.stopped) || (ev.Ended? && ev.id in Next(b, ev).tasks)
  }

  lemma HaltedStays(b: Buffer, ev: Event)
    requires Halted(b) && Enabled(b, ev)
    ensures Halted(Next(b, ev)) && !BeginsRecovery(b, ev)
  {
  }

  /** After `stop` nothing is pending and no recovery begins, whatever comes. */
  lemma {:induction false} NothingAfterStop(states: seq<Buffer>, events: seq<Event>, stop: nat, i: nat)
    requires IsRun(Init, Step, states, events) && stop < i < |states| && events[stop] == Stopped
    ensures Halted(states[i])
    ensures i < |events| ==> Enabled(states[i], events[i]) && !BeginsRecovery(states[i], events[i])
    decreases i
  {
    var k := i - 1;
    assert Step(states[k], events[k], states[k + 1]);
    if k > stop {
      NothingAfterStop(states, events, stop, k);
      HaltedStays(states[k], events[k]);
    }
    if i < |events| {
      assert Step(states[i], events[i], states[i + 1]);
      HaltedStays(states[i], events[i]);
    }
  }

  /** Until the buffer first accepts, it never holds more endpoints than its bound and recovers nothing. */
  lemma {:induction false} PendingIsBounded(states: seq<Buffer>, events: seq<Event>, i: nat)
    requires IsRun(Init, Step, states, events) && i < |states|
    requires forall k :: 0 <= k < i ==> !events[k].Drained?
    ensures |states[i].pending| <= states[i].maxPending && states[i].tasks == map[] && states[i].rejected == multiset{} && !states[i].accepting
  {
    if i > 0 {
      var k := i - 1;
      assert Step(states[k], events[k], states[k + 1]);
      PendingIsBounded(states, events, k);
      BoundedStep(states[k], events[k]);
    }
  }

  lemma BoundedStep(b: Buffer, ev: Event)
    requires |b.pending| <= b.maxPending && b.tasks == map[] && b.rejected == multiset{} && !b.accepting
    requires Enabled(b, ev) && !ev.Drained?
    ensures var c := Next(b, ev);
      |c.pending| <= c.maxPending && c.tasks == map[] && c.rejected == multiset{} && !c.accepting
  {
    if ev.Acknowledged? { Shrinks(b.pending, ev.e); }
  }

  lemma Shrinks(s: set<EndpointId>, e: EndpointId)
    ensures |s - {e}| <= |s|
  {
    if e in s { assert s == s - {e} + {e}; } else { assert s - {e} == s; }
  }

  // ---------------------------------------------------------------- the fields in place

  class EndpointReadyBuffer {
    var pending: set<EndpointId>
    var recoveries: map<EndpointId, TaskId>
    var tasks: map<TaskId, Task>
    var nextTask: TaskId
    var rejected: multiset<EndpointId>
    var accepting: bool
    var stopped: bool
    const maxPending: nat
    ghost var owed: set<EndpointId>

    ghost function View(): Buffer
      reads this
    {
      Buffer(pending, recoveries, tasks, nextTask, rejected, accepting, stopped, maxPending, owed)
    }

    constructor (maxPending: nat)
      requires maxPending >= 1
      ensures Init(View()) && this.maxPending == maxPending
    {
      pending, recoveries, tasks, nextTask, rejected := {}, map[], map[], 0, multiset{};
      accepting, stopped, this.maxPending, owed := false, false, maxPending, {};
    }

    method Recover(e: EndpointId, drains: nat)
      modifies this`recoveries, this`tasks, this`nextTask
      ensures View() == RequestRecovery(old(View()), e, drains)
    {
      if e in recoveries && recoveries[e] in tasks {
        var task := tasks[recoveries[e]];
        tasks := tasks[recoveries[e] := task.(dirty := true, drains := task.drains + drains)];
        return;
      }
      recoveries, tasks, nextTask := recoveries[e := nextTask], tasks[nextTask := Task(e, false, false, drains)], nextTask + 1;
    }

    method EndpointReady(e: EndpointId) returns (ok: bool)
      modifies this
      ensures View() == Ready(old(View()), e)
      ensures ok <==> old(stopped) || old(accepting) || e in old(pending) || |old(pending)| < maxPending
    {
      if stopped { return true; }
      if accepting {
        pending := pending - {e};
        owed := owed + {e};
        Recover(e, 0);
        return true;
      }
      if e !in pending && |pending| >= maxPending { return false; }
      owed := owed + {e};
      pending := pending + {e};
      return true;
    }

    method BeginTask(id: TaskId)
      requires id in tasks
      modifies this
      ensures View() == Begin(old(View()), id)
    {
      var task := tasks[id];
      if stopped {
        recoveries, tasks := recoveries - {task.endpoint}, tasks - {id};
        return;
      }
      tasks := tasks[id := task.(recovering := true, dirty := false)];
      owed := owed - {task.endpoint};
    }

    method EndTask(id: TaskId, ok: bool)
      requires id in tasks
      modifies this
      ensures View() == End(old(View()), id, ok)
    {
      var task := tasks[id];
      if task.dirty && accepting && !stopped {
        tasks := tasks[id := task.(dirty := false)];
        owed := owed - {task.endpoint};
        return;
      }
      DropTask(id, ok);
    }

    method RejectDrains(e: EndpointId, drains: nat)
      modifies this`rejected
      ensures View() == old(View()).(rejected := old(rejected)[e := old(rejected)[e] + drains])
    {
      rejected := rejected[e := rejected[e] + drains];
    }

    method DropTask(id: TaskId, ok: bool)
      requires id in tasks && !(tasks[id].dirty && accepting && !stopped)
      modifies this`pending, this`recoveries, this`tasks, this`rejected
      ensures View() == EndOver(old(View()), id, ok)
    {
      var task := tasks[id];
      var e := task.endpoint;
      if !stopped && (task.dirty || !ok) { pending := pending + {e}; }
      if e in recoveries && recoveries[e] == id { recoveries := recoveries - {e}; }
      tasks := tasks - {id};
      if !ok { RejectDrains(e, task.drains); }
    }

    method Acknowledge(e: EndpointId)
      modifies this`pending, this`owed
      ensures View() == Next(old(View()), Acknowledged(e))
    {
      pending, owed := pending - {e}, owed - {e};
    }

    method Pause()
      modifies this`accepting
      ensures View() == Next(old(View()), Paused)
    {
      if !stopped { accepting := false; }
    }

    method StopBuffer()
      modifies this
      ensures View() == Next(old(View()), Stopped)
    {
      stopped, accepting := true, false;
      pending, owed := {}, {};
    }

    /** `order` is the sorted list of what is pending. */
    method AcceptAndDrain(order: seq<EndpointId>)
      requires Lists(order, pending)
      modifies this
      ensures View() == if old(stopped) then old(View()) else DrainEach(old(View()).(accepting := true), order)
    {
      if stopped { return; }
      accepting := true;
      ghost var begun := View();
      for i := 0 to |order|
        invariant View() == DrainEach(begun, order[..i])
      {
        assert order[..i + 1][..i] == order[..i];
        pending := pending - {order[i]};
        Recover(order[i], 1);
      }
      assert order[..|order|] == order;
    }
  }
}

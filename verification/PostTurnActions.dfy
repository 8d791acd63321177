/**
 `AssistantPostTurnActions`: the durable rows of actions that run after the assistant's turn, how
 they are scheduled and drained, and the class that keeps them. Payloads are opaque here.
 */
module PostTurnActions {
  type ActionId = nat
  type Payload = nat

  datatype Kind = Compact | Restart
  datatype State = Pending | Running | Completed | Failed
  datatype Row = Row(kind: Kind, payload: Payload, state: State)
  type Table = map<ActionId, Row>

  predicate Over(state: State)
  {
    state == Completed || state == Failed
  }

  datatype Scheduling = Inserted | AlreadyScheduled | Conflict

  /** A row that exists is the same action only while its stored payload is the one scheduled. */
  function Schedule(t: Table, id: ActionId, kind: Kind, payload: Payload): (Table, Scheduling)
  {
    if id !in t then (t[id := Row(kind, payload, Pending)], Inserted)
    else (t, if t[id].kind == kind && t[id].payload == payload then AlreadyScheduled else Conflict)
  }

  datatype Request = Request(id: ActionId, kind: Kind, payload: Payload)

  /** What running one action's handler comes to: the payloads it checkpoints, what others schedule while
      it awaits, and how it ends. */
  datatype Ending = Done | Retry | Threw
  datatype Handling = Handling(checkpoints: seq<Payload>, arrivals: seq<Request>, ending: Ending)

  function ScheduleAll(t: Table, requests: seq<Request>): Table
  {
    if requests == [] then t
    else
      var last := requests[|requests| - 1];
      Schedule(ScheduleAll(t, requests[..|requests| - 1]), last.id, last.kind, last.payload).0
  }

  /** Scheduling never touches a row that is there, and what it adds is pending. */
  lemma {:induction false} ScheduledLater(t: Table, requests: seq<Request>)
    ensures var u := ScheduleAll(t, requests);
      t.Keys <= u.Keys && (forall id :: id in t ==> u[id] == t[id]) && (forall id :: id in u && id !in t ==> u[id].state == Pending)
      && (forall request :: request in requests ==> request.id in u)
  {
    if requests != [] { ScheduledLater(t, requests[..|requests| - 1]); }
  }

  function Checkpointed(row: Row, payloads: seq<Payload>): Row
  {
    if payloads == [] || row.state != Running then row else row.(payload := payloads[|payloads| - 1])
  }

  /** One row after a drain has come to it. `configured` says that its kind has a handler. */
  function Drained(row: Row, configured: bool, handling: Handling): Row
  {
    if Over(row.state) then row
    else if !configured then row.(state := Failed)
    else
      var ran := Checkpointed(row.(state := Running), handling.checkpoints);
      match handling.ending
      case Done => ran.(state := Completed)
      case Retry => ran.(state := Pending)
      case Threw => ran.(state := Failed)
  }

  /** The rows a drain lists: each id once, every row that is not over. */
  predicate Lists(ids: seq<ActionId>, t: Table)
  {
    (forall i, j :: 0 <= i < j < |ids| ==> ids[i] != ids[j])
    && (forall id <- ids :: id in t && !Over(t[id].state))
    && (forall id <- t :: Over(t[id].state) || id in ids)
  }

  /** One row of a drain, by its fields: a row that is over stays as it is, one of a kind without a handler
      fails as it stands, and any other holds the last payload its handler checkpointed and the state that
      the handler's ending says. */
  lemma DrainedIs(row: Row, configured: bool, handling: Handling)
    ensures var after := Drained(row, configured, handling);
      after.kind == row.kind
      && if row.state == Completed || row.state == Failed then after == row
         else if !configured then after.state == Failed && after.payload == row.payload
         else (after.state == Completed <==> handling.ending == Done) && (after.state == Failed <==> handling.ending == Threw)
              && (after.state == Pending <==> handling.ending == Retry)
              && after.payload == if handling.checkpoints == [] then row.payload else handling.checkpoints[|handling.checkpoints| - 1]
  {
  }

  /** The index of the first request for an action, or their number. */
  function FirstRequest(requests: seq<Request>, id: ActionId): (i: nat)
    ensures i <= |requests| && (i < |requests| ==> requests[i].id == id)
    ensures forall j :: 0 <= j < i ==> requests[j].id != id
  {
    if requests == [] then 0
    else
      var i := FirstRequest(requests[..|requests| - 1], id);
      if i < |requests| - 1 then i else if requests[i].id == id then i else |requests|
  }

  /** Of several requests for one action that is not there yet, the first one decides its row. */
  lemma {:induction false} FirstRequestCounts(t: Table, requests: seq<Request>, id: ActionId)
    requires id !in t
    ensures var u, i := ScheduleAll(t, requests), FirstRequest(requests, id);
      if i < |requests| then id in u && u[id] == Row(requests[i].kind, requests[i].payload, Pending) else id !in u
  {
    if requests != [] { FirstRequestCounts(t, requests[..|requests| - 1], id); }
  }

  class AssistantPostTurnActions {
    var rows: Table
    const handlers: set<Kind>

    constructor (handlers: set<Kind>)
      ensures rows == map[] && this.handlers == handlers
    {
      rows, this.handlers := map[], handlers;
    }

    method ScheduleAction(id: ActionId, kind: Kind, payload: Payload) returns (r: Scheduling)
      modifies this`rows
      ensures (rows, r) == Schedule(old(rows), id, kind, payload)
    {
      if id !in rows {
        rows := rows[id := Row(kind, payload, Pending)];
        return Inserted;
      }
      return if rows[id].kind == kind && rows[id].payload == payload then AlreadyScheduled else Conflict;
    }

    /** A checkpoint writes only a running row. */
    method Checkpoint(id: ActionId, payload: Payload) returns (ok: bool)
      modifies this`rows
      ensures ok <==> id in old(rows) && old(rows)[id].state == Running
      ensures rows == if ok then old(rows)[id := old(rows)[id].(payload := payload)] else old(rows)
    {
      ok := id in rows && rows[id].state == Running;
      if ok { rows := rows[id := rows[id].(payload := payload)]; }
    }

    method Fail(id: ActionId)
      modifies this`rows
      ensures rows == if id in old(rows) && !Over(old(rows)[id].state) then old(rows)[id := old(rows)[id].(state := Failed)] else old(rows)
    {
      if id in rows && !Over(rows[id].state) { rows := rows[id := rows[id].(state := Failed)]; }
    }

    method ScheduleRequests(requests: seq<Request>)
      modifies this`rows
      ensures rows == ScheduleAll(old(rows), requests)
    {
      for i := 0 to |requests|
        invariant rows == ScheduleAll(old(rows), requests[..i])
      {
        assert requests[..i + 1][..i] == requests[..i];
        var _ := ScheduleAction(requests[i].id, requests[i].kind, requests[i].payload);
      }
      assert requests[..|requests|] == requests;
    }

    method WriteCheckpoints(id: ActionId, payloads: seq<Payload>)
      requires id in rows && rows[id].state == Running
      modifies this`rows
      ensures rows == old(rows)[id := Checkpointed(old(rows)[id], payloads)]
    {
      for i := 0 to |payloads|
        invariant rows == old(rows)[id := Checkpointed(old(rows)[id], payloads[..i])]
      {
        var _ := Checkpoint(id, payloads[i]);
        assert payloads[..i + 1] == payloads[..i] + [payloads[i]];
      }
      assert payloads[..|payloads|] == payloads;
    }

    method RunOne(id: ActionId, handling: Handling) returns (ending: Ending)
      requires id in rows && !Over(rows[id].state) && rows[id].kind in handlers
      modifies this`rows
      ensures rows == ScheduleAll(old(rows), handling.arrivals)[id := Drained(old(rows)[id], true, handling)] && ending == handling.ending
    {
      rows := rows[id := rows[id].(state := Running)];
      ghost var running := rows;
      ScheduleRequests(handling.arrivals);
      ScheduledLater(running, handling.arrivals);
      ScheduledBeside(old(rows), handling.arrivals, id, running[id]);
      WriteCheckpoints(id, handling.checkpoints);
      ending := handling.ending;
      EndRun(id, ending);
    }

    method EndRun(id: ActionId, ending: Ending)
      requires id in rows && rows[id].state == Running
      modifies this`rows
      ensures rows == old(rows)[id := old(rows)[id].(state := match ending case Done => Completed case Retry => Pending case Threw => Failed)]
    {
      match ending {
        case Done => rows := rows[id := rows[id].(state := Completed)];
        case Retry => rows := rows[id := rows[id].(state := Pending)];
        case Threw => Fail(id);
      }
    }

    /** One drain: every row it lists is handled once, the others are left, whatever is scheduled while
        it awaits stays pending for the next drain, and the three counters say how the handled rows stand. */
    method DrainOnce(ids: seq<ActionId>, handling: map<ActionId, Handling>) returns (completed: nat, failed: nat, pending: nat)
      requires Lists(ids, rows) && forall id :: id in ids ==> id in handling
      modifies this`rows
      ensures DrainedTo(old(rows), rows, ids, handling, handlers)
      ensures completed + failed + pending == |ids| && Tally(ids, rows, completed, failed, pending)
    {
      completed, failed, pending := 0, 0, 0;
      for i := 0 to |ids|
        invariant DrainedTo(old(rows), rows, ids[..i], handling, handlers)
        invariant completed + failed + pending == i && Tally(ids[..i], rows, completed, failed, pending)
      {
        var id := ids[i];
        ghost var before := rows;
        assert ids[..i + 1] == ids[..i] + [id];
        NextIsOpen(old(rows), rows, ids, i, handling, handlers);
        var ending := HandleOne(id, handling[id]);
        DrainStep(old(rows), before, ids[..i], handling, handlers, id);
        HandledKeeps(before, ids[..i], id, handling[id], handlers);
        CountStep(ids[..i], before, rows, id, completed, failed, pending);
        match ending {
          case Done => completed := completed + 1;
          case Retry => pending := pending + 1;
          case Threw => failed := failed + 1;
        }
      }
      assert ids[..|ids|] == ids;
    }

    /** One action of a drain: a kind without a handler fails. */
    method HandleOne(id: ActionId, handling: Handling) returns (ending: Ending)
      requires id in rows && !Over(rows[id].state)
      modifies this`rows
      ensures rows == HandledIn(old(rows), id, handling, handlers)
      ensures rows[id].state == match ending case Done => Completed case Retry => Pending case Threw => Failed
    {
      if rows[id].kind !in handlers {
        Fail(id);
        return Threw;
      }
      ScheduledLater(rows, handling.arrivals);
      ending := RunOne(id, handling);
    }
  }

  function HandledIn(t: Table, id: ActionId, handling: Handling, handlers: set<Kind>): Table
    requires id in t
  {
    (if t[id].kind in handlers then ScheduleAll(t, handling.arrivals) else t)[id := Drained(t[id], t[id].kind in handlers, handling)]
  }

  lemma HandledKeeps(t: Table, done: seq<ActionId>, id: ActionId, handling: Handling, handlers: set<Kind>)
    requires id in t && id !in done && forall other :: other in done ==> other in t
    ensures var u := HandledIn(t, id, handling, handlers); forall other :: other in done ==> other in u && u[other] == t[other]
  {
    ScheduledLater(t, handling.arrivals);
  }

  /** How far a drain has come once it has handled the rows `done`. */
  ghost predicate DrainedTo(before: Table, now: Table, done: seq<ActionId>, handling: map<ActionId, Handling>, handlers: set<Kind>)
    requires forall id :: id in done ==> id in handling && id in before
  {
    && before.Keys <= now.Keys
    && (forall id :: id in before ==>
          now[id] == if id in done then Drained(before[id], before[id].kind in handlers, handling[id]) else before[id])
    && (forall id :: id in now && id !in before ==> now[id].state == Pending)
    && (forall id, request :: id in done && before[id].kind in handlers && request in handling[id].arrivals ==> request.id in now)
  }

  lemma DrainStep(before: Table, now: Table, done: seq<ActionId>, handling: map<ActionId, Handling>, handlers: set<Kind>, id: ActionId)
    requires forall other :: other in done + [id] ==> other in handling && other in before
    requires DrainedTo(before, now, done, handling, handlers) && id !in done && id in now
    ensures DrainedTo(before, HandledIn(now, id, handling[id], handlers), done + [id], handling, handlers)
  {
    ScheduledLater(now, handling[id].arrivals);
    assert now[id] == before[id];
  }

  /** The row a drain comes to next stands as it did when the drain listed it. */
  lemma NextIsOpen(before: Table, now: Table, ids: seq<ActionId>, i: nat, handling: map<ActionId, Handling>, handlers: set<Kind>)
    requires Lists(ids, before) && i < |ids| && forall id :: id in ids ==> id in handling
    requires DrainedTo(before, now, ids[..i], handling, handlers)
    ensures ids[i] !in ids[..i] && ids[i] in now && now[ids[i]] == before[ids[i]] && !Over(now[ids[i]].state)
  {
    assert ids[i] in ids;
  }

  /** The three counters of a drain count the rows it has handled by their state. */
  ghost predicate Tally(done: seq<ActionId>, t: Table, completed: nat, failed: nat, pending: nat)
  {
    completed == Count(done, t, Completed) && failed == Count(done, t, Failed) && pending == Count(done, t, Pending)
  }

  lemma CountStep(done: seq<ActionId>, t: Table, u: Table, id: ActionId, completed: nat, failed: nat, pending: nat)
    requires id !in done && id in u && Tally(done, t, completed, failed, pending)
    requires forall other :: other in done ==> other in t && other in u && t[other] == u[other]
    ensures u[id].state == Completed ==> Tally(done + [id], u, completed + 1, failed, pending)
    ensures u[id].state == Failed ==> Tally(done + [id], u, completed, failed + 1, pending)
    ensures u[id].state == Pending ==> Tally(done + [id], u, completed, failed, pending + 1)
  {
    SameCount(done, t, u);
    assert (done + [id])[..|done|] == done;
  }

  /** What others schedule does not depend on what a row that is there says. */
  lemma {:induction false} ScheduledBeside(t: Table, requests: seq<Request>, id: ActionId, row: Row)
    requires id in t
    ensures ScheduleAll(t[id := row], requests) == ScheduleAll(t, requests)[id := row]
  {
    if requests != [] {
      ScheduledBeside(t, requests[..|requests| - 1], id, row);
      ScheduledLater(t, requests[..|requests| - 1]);
    }
  }

  function Count(ids: seq<ActionId>, t: Table, state: State): nat
  {
    if ids == [] then 0
    else
      var last := ids[|ids| - 1];
      Count(ids[..|ids| - 1], t, state) + if last in t && t[last].state == state then 1 else 0
  }

  lemma {:induction false} SameCount(ids: seq<ActionId>, t: Table, u: Table)
    requires forall id :: id in ids ==> id in t && id in u && t[id] == u[id]
    ensures forall state :: Count(ids, t, state) == Count(ids, u, state)
  {
    if ids != [] {
      SameCount(ids[..|ids| - 1], t, u);
      assert ids[|ids| - 1] in ids;
    }
  }

  // ---------------------------------------------------------------- what the table keeps

  datatype Event =
    | Scheduled(id: ActionId, kind: Kind, payload: Payload)
    | DrainedRow(id: ActionId, configured: bool, handling: Handling)
    | Crashed(id: ActionId, checkpoints: seq<Payload>)

  /** A crash leaves the row running with the last payload that was checkpointed. */
  function Next(t: Table, ev: Event): Table
  {
    match ev
    case Scheduled(id, kind, payload) => Schedule(t, id, kind, payload).0
    case DrainedRow(id, configured, handling) => if id in t then t[id := Drained(t[id], configured, handling)] else t
    case Crashed(id, checkpoints) =>
      if id in t && !Over(t[id].state) then t[id := Checkpointed(t[id].(state := Running), checkpoints)] else t
  }

  function After(t: Table, events: seq<Event>): Table
  {
    if events == [] then t else Next(After(t, events[..|events| - 1]), events[|events| - 1])
  }

  /** Completed and failed rows never change again, and no row changes its kind or disappears. */
  lemma {:induction false} OverIsAbsorbing(t: Table, events: seq<Event>, id: ActionId)
    requires id in t
    ensures var u := After(t, events);
      id in u && u[id].kind == t[id].kind && (t[id].state == Completed || t[id].state == Failed ==> u[id] == t[id])
  {
    if events != [] { OverIsAbsorbing(t, events[..|events| - 1], id); }
  }

  /** The payloads that a handler of `id` writes in this step: none once the action is over. */
  function Written(t: Table, ev: Event, id: ActionId): seq<Payload>
  {
    if id !in t || Over(t[id].state) || ev.id != id then []
    else match ev
      case DrainedRow(_, configured, handling) => if configured then handling.checkpoints else []
      case Crashed(_, checkpoints) => checkpoints
      case _ => []
  }

  /** Every checkpoint that has taken effect, in order. */
  function Checkpoints(t: Table, events: seq<Event>, id: ActionId): seq<Payload>
  {
    if events == [] then []
    else
      var before := events[..|events| - 1];
      Checkpoints(t, before, id) + Written(After(t, before), events[|events| - 1], id)
  }

  lemma {:induction false} StoredIsLastCheckpoint(t: Table, events: seq<Event>, id: ActionId)
    requires id in t
    ensures id in After(t, events)
    ensures var all := Checkpoints(t, events, id);
      After(t, events)[id].payload == if all == [] then t[id].payload else all[|all| - 1]
  {
    OverIsAbsorbing(t, events, id);
    if events != [] {
      var before := events[..|events| - 1];
      StoredIsLastCheckpoint(t, before, id);
      StepStores(After(t, before), events[|events| - 1], id);
    }
  }

  lemma StepStores(t: Table, ev: Event, id: ActionId)
    requires id in t
    ensures var written := Written(t, ev, id);
      id in Next(t, ev) && Next(t, ev)[id].payload == if written == [] then t[id].payload else written[|written| - 1]
  {
  }

  /** Scheduling the same action again, after any drains, retries and crashes, is idempotent exactly while
      no checkpoint has taken effect or the last one that did is the scheduled payload; otherwise the same
      request is a conflict. It never changes the row. */
  lemma RescheduleIff(t: Table, id: ActionId, kind: Kind, payload: Payload, events: seq<Event>)
    requires id !in t
    ensures var scheduled := Schedule(t, id, kind, payload).0;
      var u := After(scheduled, events);
      var all := Checkpoints(scheduled, events, id);
      Schedule(u, id, kind, payload) == (u, if all == [] || all[|all| - 1] == payload then AlreadyScheduled else Conflict)
  {
    var scheduled := Schedule(t, id, kind, payload).0;
    OverIsAbsorbing(scheduled, events, id);
    StoredIsLastCheckpoint(scheduled, events, id);
  }
}

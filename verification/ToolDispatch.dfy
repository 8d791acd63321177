/**
 Tool calls on the durable ledger: how a call finds or prepares its row, binds a source's
 directive to it, marks it dispatched and runs its action. Calls may be repeated, run
 concurrently, crash at any step, and be overtaken by terminalization and recovery.
 */
module ToolDispatch {
  import opened Runs
  import opened RecoveryDecisions

  type AttemptId = nat
  type CallId = nat
  type ContextId = nat
  type HandlerId = nat

  /** The unique index of the ledger: attempt, call and tool. */
  datatype Key = Key(attempt: AttemptId, call: CallId, tool: Kind)

  /** `actions` counts the times the action of this row has been started. */
  datatype Row = Row(key: Key, context: ContextId, directive: bool, state: OpState, actions: nat)

  datatype Attempt = Attempt(accepting: bool, fence: nat)

  datatype Ledger = Ledger(rows: seq<Row>, consumption: map<ContextId, OperationId>, attempts: map<AttemptId, Attempt>)

  // ---------------------------------------------------------------- the ledger's operations

  predicate FenceHolds(l: Ledger, attempt: AttemptId, fence: nat)
  {
    attempt in l.attempts && l.attempts[attempt] == Attempt(true, fence)
  }

  function Find(rows: seq<Row>, key: Key): (i: nat)
    ensures i <= |rows| && (i < |rows| ==> rows[i].key == key)
    ensures forall j :: 0 <= j < i ==> rows[j].key != key
  {
    if rows == [] || rows[0].key == key then 0 else 1 + Find(rows[1..], key)
  }

  datatype Preparation = Retry | Refused | Prepare(op: OperationId, state: OpState)

  /** The transaction of `resolveSafeguard`. A row of this call under another source is found by the
      unique index and replayed. */
  function PrepareAndBindIn(l: Ledger, key: Key, fence: nat, context: ContextId, directive: bool): (Ledger, Preparation)
  {
    if directive && context in l.consumption then (l, Retry)
    else if !FenceHolds(l, key.attempt, fence) then (l, Refused)
    else
      var i := Find(l.rows, key);
      if i == |l.rows| then
        (l.(rows := l.rows + [Row(key, context, directive, OpState.Prepared, 0)],
            consumption := if directive then l.consumption[context := i] else l.consumption), Prepare(i, OpState.Prepared))
      else if l.rows[i].context != context then (l, Prepare(i, l.rows[i].state))
      else
        (l.(consumption := if directive then l.consumption[context := i] else l.consumption), Prepare(i, l.rows[i].state))
  }

  /** A call whose row exists replays it. */
  function Replayed(l: Ledger, key: Key, fence: nat): Preparation
  {
    var i := Find(l.rows, key);
    if i == |l.rows| then Retry
    else if !FenceHolds(l, key.attempt, fence) then Refused
    else Prepare(i, l.rows[i].state)
  }

  /** `markDispatched` and the start of the action. */
  function Dispatch(l: Ledger, op: OperationId, fence: nat): (Ledger, bool)
  {
    if op < |l.rows| && l.rows[op].state == OpState.Prepared && FenceHolds(l, l.rows[op].key.attempt, fence)
    then (l.(rows := l.rows[op := l.rows[op].(state := Dispatched, actions := l.rows[op].actions + 1)]), true)
    else (l, false)
  }

  predicate Fenced(l: Ledger, op: OperationId, fence: nat)
  {
    op < |l.rows| && (l.rows[op].state == OpState.Prepared || l.rows[op].state == Dispatched)
    && FenceHolds(l, l.rows[op].key.attempt, fence)
  }

  function Unbound(consumption: map<ContextId, OperationId>, op: OperationId): map<ContextId, OperationId>
  {
    map c | c in consumption && consumption[c] != op :: consumption[c]
  }

  function Succeed(l: Ledger, op: OperationId, fence: nat): (Ledger, bool)
  {
    if Fenced(l, op, fence) then (l.(rows := l.rows[op := l.rows[op].(state := Succeeded)]), true) else (l, false)
  }

  /** The catch block: nothing on an uncertain row, otherwise failed and unbound when the error
      proves that nothing happened, and uncertain when it does not. */
  function Fail(l: Ledger, op: OperationId, fence: nat, noEffect: bool): Ledger
  {
    if op < |l.rows| && l.rows[op].state == Uncertain then l
    else if !Fenced(l, op, fence) then l
    else if noEffect then l.(rows := l.rows[op := l.rows[op].(state := Failed)], consumption := Unbound(l.consumption, op))
    else l.(rows := l.rows[op := l.rows[op].(state := Uncertain)])
  }

  function Recover(l: Ledger, op: OperationId, done: bool): Ledger
  {
    if op < |l.rows| && Unsettled(l.rows[op].state) then
      l.(rows := l.rows[op := l.rows[op].(state := if done then Succeeded else Failed)],
         consumption := if done then l.consumption else Unbound(l.consumption, op))
    else l
  }

  function Terminalized(l: Ledger, attempt: AttemptId): Ledger
  {
    if attempt in l.attempts && l.attempts[attempt].accepting
    then l.(attempts := l.attempts[attempt := Attempt(false, l.attempts[attempt].fence + 1)]) else l
  }

  function MarkedUncertain(l: Ledger, attempt: AttemptId): Ledger
  {
    l.(rows := seq(|l.rows|, i requires 0 <= i < |l.rows| =>
      if l.rows[i].key.attempt == attempt && l.rows[i].state == Dispatched then l.rows[i].(state := Uncertain) else l.rows[i]))
  }

  // ---------------------------------------------------------------- the handlers

  /** `Resolved` holds the state the row had when it was read. */
  datatype Stage = Selecting | Chosen(context: ContextId, directive: bool) | Resolved(op: OperationId, state: OpState) | Acting(op: OperationId)
  datatype Handler = Handler(key: Key, fence: nat, stage: Stage)

  datatype World = World(ledger: Ledger, handlers: map<HandlerId, Handler>, next: HandlerId)

  datatype Event =
    | Called(key: Key, fence: nat)
    | Selected(h: HandlerId, context: ContextId, directive: bool)
    | ReplayedCall(h: HandlerId)
    | Transacted(h: HandlerId)
    | DispatchedCall(h: HandlerId)
    | ActionReturned(h: HandlerId)
    | ActionThrew(h: HandlerId, noEffect: bool)
    | Crashed
    | AttemptOpened(attempt: AttemptId)
    | AttemptTerminalized(attempt: AttemptId)
    | AttemptUncertain(attempt: AttemptId)
    | Recovered(op: OperationId, done: bool)

  predicate Enabled(w: World, ev: Event)
  {
    match ev
    case Selected(h, _, _) => h in w.handlers && w.handlers[h].stage.Selecting? && Find(w.ledger.rows, w.handlers[h].key) == |w.ledger.rows|
    case ReplayedCall(h) => h in w.handlers && w.handlers[h].stage.Selecting? && Find(w.ledger.rows, w.handlers[h].key) < |w.ledger.rows|
    case Transacted(h) => h in w.handlers && w.handlers[h].stage.Chosen?
    case DispatchedCall(h) => h in w.handlers && w.handlers[h].stage.Resolved?
    case ActionReturned(h) => h in w.handlers && w.handlers[h].stage.Acting?
    case ActionThrew(h, _) => h in w.handlers && w.handlers[h].stage.Acting?
    case AttemptOpened(attempt) => attempt !in w.ledger.attempts
    case _ => true
  }

  function At(w: World, h: HandlerId, stage: Stage): World
    requires h in w.handlers
  {
    w.(handlers := w.handlers[h := w.handlers[h].(stage := stage)])
  }

  function Over(w: World, h: HandlerId): World
  {
    w.(handlers := w.handlers - {h})
  }

  function Answer(w: World, h: HandlerId, ledger: Ledger, r: Preparation): World
    requires h in w.handlers
  {
    var v := w.(ledger := ledger);
    match r
    case Retry => At(v, h, Selecting)
    case Refused => Over(v, h)
    case Prepare(op, state) => At(v, h, Resolved(op, state))
  }

  function Next(w: World, ev: Event): World
    requires Enabled(w, ev)
  {
    match ev
    case Called(key, fence) => w.(handlers := w.handlers[w.next := Handler(key, fence, Selecting)], next := w.next + 1)
    case Selected(h, context, directive) => At(w, h, Chosen(context, directive))
    case ReplayedCall(h) => Answer(w, h, w.ledger, Replayed(w.ledger, w.handlers[h].key, w.handlers[h].fence))
    case Transacted(h) =>
      var it := w.handlers[h];
      var (ledger, r) := PrepareAndBindIn(w.ledger, it.key, it.fence, it.stage.context, it.stage.directive);
      Answer(w, h, ledger, r)
    case DispatchedCall(h) =>
      var it := w.handlers[h];
      if it.stage.state != OpState.Prepared then Over(w, h)
      else
        var (ledger, ok) := Dispatch(w.ledger, it.stage.op, it.fence);
        if ok then At(w.(ledger := ledger), h, Acting(it.stage.op)) else Over(w, h)
    case ActionReturned(h) =>
      var it := w.handlers[h];
      var (ledger, ok) := Succeed(w.ledger, it.stage.op, it.fence);
      Over(w.(ledger := if ok then ledger else Fail(w.ledger, it.stage.op, it.fence, false)), h)
    case ActionThrew(h, noEffect) =>
      var it := w.handlers[h];
      Over(w.(ledger := Fail(w.ledger, it.stage.op, it.fence, noEffect)), h)
    case Crashed => w.(handlers := map[])
    case AttemptOpened(attempt) => w.(ledger := w.ledger.(attempts := w.ledger.attempts[attempt := Attempt(true, 0)]))
    case AttemptTerminalized(attempt) => w.(ledger := Terminalized(w.ledger, attempt))
    case AttemptUncertain(attempt) => w.(ledger := MarkedUncertain(w.ledger, attempt))
    case Recovered(op, done) => w.(ledger := Recover(w.ledger, op, done))
  }

  ghost predicate Step(w: World, ev: Event, v: World)
  {
    Enabled(w, ev) && v == Next(w, ev)
  }

  ghost predicate Init(w: World)
  {
    w == World(Ledger([], map[], map[]), map[], 0)
  }

  // ---------------------------------------------------------------- the invariant of the ledger

  predicate UniqueKeys(rows: seq<Row>)
  {
    forall i, j :: 0 <= i < j < |rows| ==> rows[i].key != rows[j].key
  }

  predicate ActedOnce(rows: seq<Row>)
  {
    forall i :: 0 <= i < |rows| ==> rows[i].actions <= 1 && (rows[i].state == OpState.Prepared ==> rows[i].actions == 0)
  }

  /** Every directive row that has not failed holds its source's consumption; a consumption names a
      row of that source. */
  ghost predicate Bound(l: Ledger)
  {
    (forall i :: 0 <= i < |l.rows| && l.rows[i].directive && l.rows[i].state != Failed ==>
       l.rows[i].context in l.consumption && l.consumption[l.rows[i].context] == i)
    && (forall c :: c in l.consumption ==> l.consumption[c] < |l.rows| && l.rows[l.consumption[c]].context == c)
  }

  ghost predicate Inv(l: Ledger)
  {
    UniqueKeys(l.rows) && ActedOnce(l.rows) && Bound(l)
  }

  lemma PreparedKeepsInv(l: Ledger, key: Key, fence: nat, context: ContextId, directive: bool)
    requires Inv(l)
    ensures Inv(PrepareAndBindIn(l, key, fence, context, directive).0)
  {
  }

  lemma RowChangeKeepsInv(l: Ledger, op: OperationId, row: Row)
    requires Inv(l) && op < |l.rows| && row == l.rows[op].(state := row.state, actions := row.actions)
    requires row.actions <= 1 && row.state != OpState.Prepared && (l.rows[op].state == Failed ==> row.state == Failed)
    ensures Inv(l.(rows := l.rows[op := row]))
  {
  }

  lemma UnbindKeepsInv(l: Ledger, op: OperationId)
    requires Inv(l) && op < |l.rows|
    ensures Inv(l.(rows := l.rows[op := l.rows[op].(state := Failed)], consumption := Unbound(l.consumption, op)))
  {
  }

  lemma DispatchKeepsInv(l: Ledger, op: OperationId, fence: nat)
    requires Inv(l)
    ensures Inv(Dispatch(l, op, fence).0)
  {
    if Dispatch(l, op, fence).1 {
      RowChangeKeepsInv(l, op, l.rows[op].(state := Dispatched, actions := l.rows[op].actions + 1));
    }
  }

  lemma FailKeepsInv(l: Ledger, op: OperationId, fence: nat, noEffect: bool)
    requires Inv(l)
    ensures Inv(Fail(l, op, fence, noEffect))
  {
    if Fenced(l, op, fence) {
      UnbindKeepsInv(l, op);
      RowChangeKeepsInv(l, op, l.rows[op].(state := Uncertain));
    }
  }

  lemma SucceedKeepsInv(l: Ledger, op: OperationId, fence: nat)
    requires Inv(l)
    ensures Inv(Succeed(l, op, fence).0)
  {
    if Fenced(l, op, fence) { RowChangeKeepsInv(l, op, l.rows[op].(state := Succeeded)); }
  }

  lemma RecoverKeepsInv(l: Ledger, op: OperationId, done: bool)
    requires Inv(l)
    ensures Inv(Recover(l, op, done))
  {
    if op < |l.rows| && Unsettled(l.rows[op].state) {
      UnbindKeepsInv(l, op);
      RowChangeKeepsInv(l, op, l.rows[op].(state := Succeeded));
    }
  }

  lemma MarkedKeepsInv(l: Ledger, attempt: AttemptId)
    requires Inv(l)
    ensures Inv(MarkedUncertain(l, attempt))
  {
  }

  lemma NextKeepsInv(w: World, ev: Event)
    requires Inv(w.ledger) && Enabled(w, ev)
    ensures Inv(Next(w, ev).ledger)
  {
    match ev
    case Transacted(h) =>
      PreparedKeepsInv(w.ledger, w.handlers[h].key, w.handlers[h].fence, w.handlers[h].stage.context, w.handlers[h].stage.directive);
    case DispatchedCall(h) => DispatchKeepsInv(w.ledger, w.handlers[h].stage.op, w.handlers[h].fence);
    case ActionReturned(h) =>
      SucceedKeepsInv(w.ledger, w.handlers[h].stage.op, w.handlers[h].fence);
      FailKeepsInv(w.ledger, w.handlers[h].stage.op, w.handlers[h].fence, false);
    case ActionThrew(h, noEffect) => FailKeepsInv(w.ledger, w.handlers[h].stage.op, w.handlers[h].fence, noEffect);
    case AttemptUncertain(attempt) => MarkedKeepsInv(w.ledger, attempt);
    case Recovered(op, done) => RecoverKeepsInv(w.ledger, op, done);
    case _ =>
  }

  lemma StepKeepsInv()
    ensures forall w: World :: Init(w) ==> Inv(w.ledger)
    ensures forall w: World, ev: Event, v: World :: Inv(w.ledger) && Step(w, ev, v) ==> Inv(v.ledger)
  {
    forall w: World, ev: Event, v: World | Inv(w.ledger) && Step(w, ev, v)
      ensures Inv(v.ledger)
    {
      NextKeepsInv(w, ev);
    }
  }

  lemma TraceKeepsInv(states: seq<World>, events: seq<Event>, i: nat)
    requires IsRun(Init, Step, states, events) && i < |states|
    ensures Inv(states[i].ledger)
  {
    StepKeepsInv();
    HoldsThroughout(Init, Step, (w: World) => Inv(w.ledger), states, events, i);
  }

  // ---------------------------------------------------------------- once, over any run

  /** How often the action of one (attempt, call, tool) has been started, in all. */
  function ActionsOf(rows: seq<Row>, key: Key): nat
  {
    if rows == [] then 0
    else ActionsOf(rows[1..], key) + if rows[0].key == key then rows[0].actions else 0
  }

  lemma {:induction false} NoActionsElsewhere(rows: seq<Row>, key: Key)
    requires forall i :: 0 <= i < |rows| ==> rows[i].key != key
    ensures ActionsOf(rows, key) == 0
  {
    if rows != [] { NoActionsElsewhere(rows[1..], key); }
  }

  lemma {:induction false} ActionsAtMostOne(rows: seq<Row>, key: Key)
    requires UniqueKeys(rows) && ActedOnce(rows)
    ensures ActionsOf(rows, key) <= 1
  {
    if rows != [] {
      if rows[0].key == key {
        assert forall i :: 0 <= i < |rows[1..]| ==> rows[1..][i] == rows[i + 1];
        NoActionsElsewhere(rows[1..], key);
      } else {
        ActionsAtMostOne(rows[1..], key);
      }
    }
  }

  /** Rows are never deleted and keep their key and their count of actions. */
  predicate Grows(before: seq<Row>, after: seq<Row>)
  {
    |before| <= |after|
    && forall i :: 0 <= i < |before| ==> after[i].key == before[i].key && after[i].actions >= before[i].actions
  }

  lemma RowsGrow(w: World, ev: Event)
    requires Enabled(w, ev)
    ensures Grows(w.ledger.rows, Next(w, ev).ledger.rows)
  {
  }

  lemma GrowsTrans(a: seq<Row>, b: seq<Row>, c: seq<Row>)
    requires Grows(a, b) && Grows(b, c)
    ensures Grows(a, c)
  {
  }

  lemma {:induction false} RowsGrowThroughout(states: seq<World>, events: seq<Event>, i: nat, j: nat)
    requires IsRun(Init, Step, states, events) && i <= j < |states|
    ensures Grows(states[i].ledger.rows, states[j].ledger.rows)
    decreases j
  {
    if i < j {
      var k := j - 1;
      RowsGrowThroughout(states, events, i, k);
      assert Step(states[k], events[k], states[k + 1]);
      RowsGrow(states[k], events[k]);
      GrowsTrans(states[i].ledger.rows, states[k].ledger.rows, states[j].ledger.rows);
    }
  }

  /** Over replays, duplicate concurrent calls, crashes, terminalization and recovery, the action of
      one (attempt, call, tool) is started at most once; no start is ever forgotten. */
  lemma ActionRunsAtMostOnce(states: seq<World>, events: seq<Event>, i: nat, j: nat, key: Key)
    requires IsRun(Init, Step, states, events) && i <= j < |states|
    ensures ActionsOf(states[j].ledger.rows, key) <= 1
    ensures Grows(states[i].ledger.rows, states[j].ledger.rows)
  {
    TraceKeepsInv(states, events, j);
    ActionsAtMostOne(states[j].ledger.rows, key);
    RowsGrowThroughout(states, events, i, j);
  }

  /** The effectful operations of one source's directive: at any time there is at most one that is not
      proven to have had no effect, and while there is one no other can be bound. */
  lemma DirectiveHasOneOperation(states: seq<World>, events: seq<Event>, i: nat, a: OperationId, b: OperationId)
    requires IsRun(Init, Step, states, events) && i < |states|
    requires a < |states[i].ledger.rows| && b < |states[i].ledger.rows|
    requires states[i].ledger.rows[a].directive && states[i].ledger.rows[b].directive
    requires states[i].ledger.rows[a].context == states[i].ledger.rows[b].context
    requires states[i].ledger.rows[a].state != Failed && states[i].ledger.rows[b].state != Failed
    ensures a == b && states[i].ledger.rows[a].context in states[i].ledger.consumption
  {
    TraceKeepsInv(states, events, i);
    var l := states[i].ledger;
    assert l.consumption[l.rows[a].context] == a && l.consumption[l.rows[b].context] == b;
  }

  /** A failure that is proven to have had no effect gives back the directive of its row and no other, and
      a new call can be bound to it; every other failure keeps it consumed. */
  lemma ProvenFailureFreesDirective(l: Ledger, op: OperationId, fence: nat, key: Key)
    requires Inv(l) && Fenced(l, op, fence) && l.rows[op].directive
    ensures var m := Fail(l, op, fence, true);
      m.rows == l.rows[op := l.rows[op].(state := Failed)]
      && m.consumption.Keys == l.consumption.Keys - {l.rows[op].context}
      && (forall c :: c in m.consumption ==> m.consumption[c] == l.consumption[c])
      && (FenceHolds(m, key.attempt, fence) && Find(m.rows, key) == |m.rows| ==>
            PrepareAndBindIn(m, key, fence, l.rows[op].context, true).1 == Prepare(|m.rows|, OpState.Prepared))
    ensures var m := Fail(l, op, fence, false);
      m.consumption == l.consumption && m.rows == l.rows[op := l.rows[op].(state := Uncertain)]
      && PrepareAndBindIn(m, key, fence, l.rows[op].context, true) == (m, Retry)
  {
    assert l.consumption[l.rows[op].context] == op;
    forall c
      ensures c in Unbound(l.consumption, op) <==> c in l.consumption && c != l.rows[op].context
    {
    }
  }

  // ---------------------------------------------------------------- directives of failed operations

  ghost predicate NoFailedBound(l: Ledger)
  {
    forall c :: c in l.consumption && l.consumption[c] < |l.rows| ==> l.rows[l.consumption[c]].state != Failed
  }

  /** The transaction of a call that found no row when it looked, and now finds the row of its own key and
      source failed, with the directive given back. */
  predicate BindsFailed(w: World, ev: Event)
    requires Enabled(w, ev)
  {
    ev.Transacted?
    && var it := w.handlers[ev.h];
      var i := Find(w.ledger.rows, it.key);
      it.stage.directive && it.stage.context !in w.ledger.consumption && FenceHolds(w.ledger, it.key.attempt, it.fence)
      && i < |w.ledger.rows| && w.ledger.rows[i].context == it.stage.context && w.ledger.rows[i].state == Failed
  }

  lemma TransactionBindsFailedIff(l: Ledger, key: Key, fence: nat, context: ContextId, directive: bool)
    requires Inv(l)
    ensures var i := Find(l.rows, key);
      NoFailedBound(PrepareAndBindIn(l, key, fence, context, directive).0) <==>
        NoFailedBound(l)
        && !(directive && context !in l.consumption && FenceHolds(l, key.attempt, fence)
             && i < |l.rows| && l.rows[i].context == context && l.rows[i].state == Failed)
  {
    var m := PrepareAndBindIn(l, key, fence, context, directive).0;
    if !NoFailedBound(l) {
      var c :| c in l.consumption && l.consumption[c] < |l.rows| && l.rows[l.consumption[c]].state == Failed;
      assert c in m.consumption && m.consumption[c] == l.consumption[c];
    } else if directive && context !in l.consumption && context in m.consumption {
      assert m.consumption[context] == Find(l.rows, key);
    }
  }

  /** Failing a row unbinds it, so a row is never bound by failing. */
  lemma FailureBindsNothing(l: Ledger, op: OperationId)
    requires Inv(l) && op < |l.rows| && l.rows[op].state != Failed
    ensures NoFailedBound(l.(rows := l.rows[op := l.rows[op].(state := Failed)], consumption := Unbound(l.consumption, op)))
      <==> NoFailedBound(l)
  {
    var m := l.(rows := l.rows[op := l.rows[op].(state := Failed)], consumption := Unbound(l.consumption, op));
    if !NoFailedBound(l) {
      var c :| c in l.consumption && l.rows[l.consumption[c]].state == Failed;
      assert c in m.consumption && m.rows[m.consumption[c]].state == Failed;
    }
  }

  lemma RowMoveBindsNothing(l: Ledger, rows: seq<Row>)
    requires Inv(l) && |rows| == |l.rows| && forall i :: 0 <= i < |rows| ==> (rows[i].state == Failed <==> l.rows[i].state == Failed)
    ensures NoFailedBound(l.(rows := rows)) <==> NoFailedBound(l)
  {
  }

  lemma FailBindsNothing(l: Ledger, op: OperationId, fence: nat, noEffect: bool)
    requires Inv(l)
    ensures NoFailedBound(Fail(l, op, fence, noEffect)) <==> NoFailedBound(l)
  {
    if Fenced(l, op, fence) {
      if noEffect { FailureBindsNothing(l, op); } else { RowMoveBindsNothing(l, l.rows[op := l.rows[op].(state := Uncertain)]); }
    }
  }

  lemma RecoverBindsNothing(l: Ledger, op: OperationId, done: bool)
    requires Inv(l)
    ensures NoFailedBound(Recover(l, op, done)) <==> NoFailedBound(l)
  {
    if op < |l.rows| && Unsettled(l.rows[op].state) {
      if done { RowMoveBindsNothing(l, l.rows[op := l.rows[op].(state := Succeeded)]); } else { FailureBindsNothing(l, op); }
    }
  }

  lemma CallBindsNothing(w: World, ev: Event)
    requires Inv(w.ledger) && Enabled(w, ev) && (ev.DispatchedCall? || ev.ActionReturned? || ev.ActionThrew?)
    ensures NoFailedBound(Next(w, ev).ledger) <==> NoFailedBound(w.ledger)
  {
    var l, it := w.ledger, w.handlers[ev.h];
    match ev
    case DispatchedCall(_) =>
      if Dispatch(l, it.stage.op, it.fence).1 { RowMoveBindsNothing(l, Dispatch(l, it.stage.op, it.fence).0.rows); }
    case ActionReturned(_) =>
      if Fenced(l, it.stage.op, it.fence) { RowMoveBindsNothing(l, Succeed(l, it.stage.op, it.fence).0.rows); }
      FailBindsNothing(l, it.stage.op, it.fence, false);
    case ActionThrew(_, noEffect) => FailBindsNothing(l, it.stage.op, it.fence, noEffect);
  }

  /** The one step after which a consumption names a failed row. */
  lemma BindsFailedIff(w: World, ev: Event)
    requires Inv(w.ledger) && Enabled(w, ev)
    ensures NoFailedBound(Next(w, ev).ledger) <==> NoFailedBound(w.ledger) && !BindsFailed(w, ev)
  {
    match ev
    case Transacted(h) =>
      var it := w.handlers[h];
      TransactionBindsFailedIff(w.ledger, it.key, it.fence, it.stage.context, it.stage.directive);
    case DispatchedCall(_) => CallBindsNothing(w, ev);
    case ActionReturned(_) => CallBindsNothing(w, ev);
    case ActionThrew(_, _) => CallBindsNothing(w, ev);
    case AttemptUncertain(attempt) => RowMoveBindsNothing(w.ledger, MarkedUncertain(w.ledger, attempt).rows);
    case Recovered(op, done) => RecoverBindsNothing(w.ledger, op, done);
    case _ =>
  }

  /** Over every run: a directive is bound to a failed operation exactly if some call's transaction came
      upon its own row failed. */
  lemma {:induction false} FailedIsBoundIff(states: seq<World>, events: seq<Event>, i: nat)
    requires IsRun(Init, Step, states, events) && i < |states|
    ensures forall j :: 0 <= j < |events| ==> Enabled(states[j], events[j])
    ensures NoFailedBound(states[i].ledger) <==> forall j :: 0 <= j < i ==> !BindsFailed(states[j], events[j])
  {
    forall j | 0 <= j < |events|
      ensures Enabled(states[j], events[j])
    {
      assert Step(states[j], events[j], states[j + 1]);
    }
    if i > 0 {
      assert Step(states[i - 1], events[i - 1], states[i]);
      FailedIsBoundIff(states, events, i - 1);
      TraceKeepsInv(states, events, i - 1);
      BindsFailedIff(states[i - 1], events[i - 1]);
    }
  }

  /** A row that this step may fail belongs to a key of which a call stands between its look and its
      transaction. */
  predicate Overtakes(w: World, ev: Event)
    requires Enabled(w, ev)
  {
    exists h :: h in w.handlers && w.handlers[h].stage.Chosen? && MayFail(w, ev, w.handlers[h].key)
  }

  predicate MayFail(w: World, ev: Event, key: Key)
    requires Enabled(w, ev)
  {
    match ev
    case ActionThrew(h, noEffect) => noEffect && w.handlers[h].stage.op < |w.ledger.rows| && w.ledger.rows[w.handlers[h].stage.op].key == key
    case Recovered(op, done) => !done && op < |w.ledger.rows| && w.ledger.rows[op].key == key
    case _ => false
  }

  /** A call that has looked and not transacted finds no failed row of its key. */
  ghost predicate Timely(w: World)
  {
    forall h :: h in w.handlers && w.handlers[h].stage.Chosen? ==>
      forall i :: 0 <= i < |w.ledger.rows| && w.ledger.rows[i].state == Failed ==> w.ledger.rows[i].key != w.handlers[h].key
  }

  /** Only the steps that may fail a row do. */
  lemma FailedRowsGrow(w: World, ev: Event, i: nat)
    requires Enabled(w, ev) && i < |Next(w, ev).ledger.rows| && Next(w, ev).ledger.rows[i].state == Failed
    ensures i < |w.ledger.rows| && Next(w, ev).ledger.rows[i].key == w.ledger.rows[i].key
    ensures w.ledger.rows[i].state == Failed || MayFail(w, ev, w.ledger.rows[i].key)
  {
  }

  lemma TimelyStays(w: World, ev: Event)
    requires Timely(w) && Enabled(w, ev) && !Overtakes(w, ev)
    ensures Timely(Next(w, ev))
  {
    var v := Next(w, ev);
    forall h, i | h in v.handlers && v.handlers[h].stage.Chosen? && 0 <= i < |v.ledger.rows| && v.ledger.rows[i].state == Failed
      ensures v.ledger.rows[i].key != v.handlers[h].key
    {
      FailedRowsGrow(w, ev, i);
      if h in w.handlers && w.handlers[h].stage.Chosen? {
        assert w.handlers[h].key == v.handlers[h].key;
      } else {
        assert ev.Selected? && ev.h == h;
      }
    }
  }

  /** While no row fails behind the back of a call of its key that has looked and not yet transacted, a
      directive is never bound to a failed operation. */
  lemma {:induction false} TimelyCallsBindNoFailed(states: seq<World>, events: seq<Event>, i: nat)
    requires IsRun(Init, Step, states, events) && i < |states|
    requires forall j :: 0 <= j < i ==> Enabled(states[j], events[j]) && !Overtakes(states[j], events[j])
    ensures Timely(states[i]) && NoFailedBound(states[i].ledger)
  {
    if i > 0 {
      var j := i - 1;
      TimelyCallsBindNoFailed(states, events, j);
      TraceKeepsInv(states, events, j);
      assert Step(states[j], events[j], states[j + 1]);
      TimelyStays(states[j], events[j]);
      BindsFailedIff(states[j], events[j]);
    }
  }

  /** Two calls of one key, both past the look for their row, the first of which is about to act. */
  lemma TwoCallsChosen(key: Key, context: ContextId) returns (states: seq<World>, events: seq<Event>)
    ensures IsRun(Init, Step, states, events)
    ensures states[|events|] == World(Ledger([], map[], map[key.attempt := Attempt(true, 0)]),
      map[0 := Handler(key, 0, Chosen(context, true)), 1 := Handler(key, 0, Chosen(context, true))], 2)
  {
    var first := Handler(key, 0, Selecting);
    var chosen := Handler(key, 0, Chosen(context, true));
    var empty := World(Ledger([], map[], map[]), map[], 0);
    var open := Ledger([], map[], map[key.attempt := Attempt(true, 0)]);
    states, events := [empty], [];
    Extend(Init, Step, states, events, AttemptOpened(key.attempt), World(open, map[], 0));
    states, events := states + [World(open, map[], 0)], events + [AttemptOpened(key.attempt)];
    Extend(Init, Step, states, events, Called(key, 0), World(open, map[0 := first], 1));
    states, events := states + [World(open, map[0 := first], 1)], events + [Called(key, 0)];
    Extend(Init, Step, states, events, Called(key, 0), World(open, map[0 := first, 1 := first], 2));
    states, events := states + [World(open, map[0 := first, 1 := first], 2)], events + [Called(key, 0)];
    Extend(Init, Step, states, events, Selected(0, context, true), World(open, map[0 := chosen, 1 := first], 2));
    states, events := states + [World(open, map[0 := chosen, 1 := first], 2)], events + [Selected(0, context, true)];
    Extend(Init, Step, states, events, Selected(1, context, true), World(open, map[0 := chosen, 1 := chosen], 2));
    states, events := states + [World(open, map[0 := chosen, 1 := chosen], 2)], events + [Selected(1, context, true)];
  }

  /** The shortest run of the model that binds a directive to a failed row: the second call stays between
      its look and its transaction while the first transacts, runs and fails. */
  lemma FailedRowCanBeBound(key: Key, context: ContextId) returns (states: seq<World>, events: seq<Event>)
    ensures IsRun(Init, Step, states, events)
    ensures var l := states[|events|].ledger;
      context in l.consumption && l.consumption[context] == 0 && |l.rows| == 1 && l.rows[0].state == Failed
  {
    states, events := TwoCallsChosen(key, context);
    var row := Row(key, context, true, OpState.Prepared, 0);
    var chosen := Handler(key, 0, Chosen(context, true));
    var bound := Ledger([row], map[context := 0], map[key.attempt := Attempt(true, 0)]);
    var resolved := World(bound, map[0 := Handler(key, 0, Resolved(0, OpState.Prepared)), 1 := chosen], 2);
    Extend(Init, Step, states, events, Transacted(0), resolved);
    states, events := states + [resolved], events + [Transacted(0)];
    var acting := World(bound.(rows := [row.(state := Dispatched, actions := 1)]), map[0 := Handler(key, 0, Acting(0)), 1 := chosen], 2);
    Extend(Init, Step, states, events, DispatchedCall(0), acting);
    states, events := states + [acting], events + [DispatchedCall(0)];
    var failed := World(bound.(rows := [row.(state := Failed, actions := 1)], consumption := map[]), map[1 := chosen], 2);
    assert Unbound(map[context := 0], 0) == map[];
    Extend(Init, Step, states, events, ActionThrew(0, true), failed);
    states, events := states + [failed], events + [ActionThrew(0, true)];
    var again := World(failed.ledger.(consumption := map[context := 0]), map[1 := Handler(key, 0, Resolved(0, Failed))], 2);
    Extend(Init, Step, states, events, Transacted(1), again);
    states, events := states + [again], events + [Transacted(1)];
  }

  // ---------------------------------------------------------------- the ledger in place

  class OperationStore {
    var rows: seq<Row>
    var consumption: map<ContextId, OperationId>
    var attempts: map<AttemptId, Attempt>

    function View(): Ledger
      reads this
    {
      Ledger(rows, consumption, attempts)
    }

    constructor ()
      ensures View() == Ledger([], map[], map[])
    {
      rows, consumption, attempts := [], map[], map[];
    }

    method PrepareAndBind(key: Key, fence: nat, context: ContextId, directive: bool) returns (r: Preparation)
      modifies this`rows, this`consumption
      ensures (View(), r) == PrepareAndBindIn(old(View()), key, fence, context, directive)
    {
      if directive && context in consumption { return Retry; }
      if !FenceHolds(View(), key.attempt, fence) { return Refused; }
      var i := Find(rows, key);
      if i == |rows| {
        rows := rows + [Row(key, context, directive, OpState.Prepared, 0)];
      } else if rows[i].context != context {
        return Prepare(i, rows[i].state);
      }
      if directive { consumption := consumption[context := i]; }
      return Prepare(i, rows[i].state);
    }

    method MarkDispatched(op: OperationId, fence: nat) returns (ok: bool)
      modifies this`rows
      ensures (View(), ok) == Dispatch(old(View()), op, fence)
    {
      if op >= |rows| || rows[op].state != OpState.Prepared || !FenceHolds(View(), rows[op].key.attempt, fence) { return false; }
      rows := rows[op := rows[op].(state := Dispatched, actions := rows[op].actions + 1)];
      return true;
    }

    method SucceedCall(op: OperationId, fence: nat) returns (ok: bool)
      modifies this`rows
      ensures (View(), ok) == Succeed(old(View()), op, fence)
    {
      ok := Fenced(View(), op, fence);
      if ok { rows := rows[op := rows[op].(state := Succeeded)]; }
    }

    method FailCall(op: OperationId, fence: nat, noEffect: bool)
      modifies this`rows, this`consumption
      ensures View() == Fail(old(View()), op, fence, noEffect)
    {
      if op < |rows| && rows[op].state == Uncertain { return; }
      if !Fenced(View(), op, fence) { return; }
      rows := rows[op := rows[op].(state := if noEffect then Failed else Uncertain)];
      if noEffect { consumption := Unbound(consumption, op); }
    }

    method MarkAttemptOperationsUncertain(attempt: AttemptId)
      modifies this`rows
      ensures View() == MarkedUncertain(old(View()), attempt)
    {
      for i := 0 to |rows|
        invariant |rows| == |old(rows)| && View() == old(View()).(rows := rows)
        invariant forall j :: 0 <= j < i ==> rows[j] == MarkedUncertain(old(View()), attempt).rows[j]
        invariant forall j :: i <= j < |rows| ==> rows[j] == old(rows)[j]
      {
        if rows[i].key.attempt == attempt && rows[i].state == Dispatched { rows := rows[i := rows[i].(state := Uncertain)]; }
      }
    }
  }
}

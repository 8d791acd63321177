/**
 What every step leaves of a tool call: its row, the directive of its source, the call itself and the
 fence of its attempt, each told from the fields that the step finds.
 */
module CallOutcomes {
  import opened Runs
  import opened RecoveryDecisions
  import opened ToolDispatch

  /** The attempt still accepts tool calls, and no fence has been raised since the call read it. */
  predicate Admits(l: Ledger, attempt: AttemptId, fence: nat)
  {
    attempt in l.attempts && l.attempts[attempt].accepting && l.attempts[attempt].fence == fence
  }

  /** The call starts the action of row `i`: it found the row prepared, and the row still is. */
  predicate Starts(w: World, ev: Event, i: nat)
  {
    ev.DispatchedCall? && ev.h in w.handlers && i < |w.ledger.rows|
    && w.handlers[ev.h].stage == Resolved(i, OpState.Prepared) && w.ledger.rows[i].state == OpState.Prepared
    && Admits(w.ledger, w.ledger.rows[i].key.attempt, w.handlers[ev.h].fence)
  }

  /** The action of row `i` is over and its call may still write the row. */
  predicate Writes(w: World, ev: Event, i: nat)
  {
    (ev.ActionReturned? || ev.ActionThrew?) && ev.h in w.handlers && i < |w.ledger.rows|
    && w.handlers[ev.h].stage == Acting(i)
    && (w.ledger.rows[i].state == OpState.Prepared || w.ledger.rows[i].state == Dispatched)
    && Admits(w.ledger, w.ledger.rows[i].key.attempt, w.handlers[ev.h].fence)
  }

  /** Recovery decides row `i`. */
  predicate Decides(w: World, ev: Event, i: nat)
  {
    ev.Recovered? && ev.op == i && i < |w.ledger.rows|
    && (w.ledger.rows[i].state == Dispatched || w.ledger.rows[i].state == Uncertain)
  }

  /** A row after any step: an action starts on a prepared row under a fence that holds, the answer of an
      action is written under such a fence only, an attempt that becomes uncertain takes its dispatched rows
      with it, and recovery decides rows that are dispatched or uncertain. Nothing else moves a row. */
  lemma RowAfter(w: World, ev: Event, i: nat)
    requires Enabled(w, ev) && i < |w.ledger.rows|
    ensures var row, rows := w.ledger.rows[i], Next(w, ev).ledger.rows;
      i < |rows| && rows[i] == row.(state := rows[i].state, actions := row.actions + if Starts(w, ev, i) then 1 else 0)
    ensures var row, rows := w.ledger.rows[i], Next(w, ev).ledger.rows;
      rows[i].state ==
        if Starts(w, ev, i) then Dispatched
        else if Writes(w, ev, i) then (if ev.ActionReturned? then Succeeded else if ev.noEffect then Failed else Uncertain)
        else if Decides(w, ev, i) then (if ev.done then Succeeded else Failed)
        else if ev.AttemptUncertain? && row.key.attempt == ev.attempt && row.state == Dispatched then Uncertain
        else row.state
  {
  }

  /** A call at its dispatch goes on to its action exactly if it starts it, and is over otherwise. */
  lemma CallAfterDispatch(w: World, h: HandlerId)
    requires Enabled(w, DispatchedCall(h))
    ensures var v, op := Next(w, DispatchedCall(h)), w.handlers[h].stage.op;
      v.handlers == if Starts(w, DispatchedCall(h), op) then w.handlers[h := w.handlers[h].(stage := Acting(op))] else w.handlers - {h}
  {
  }

  /** A call that finds its row replays it, and is refused once the fence does not hold. */
  lemma CallAfterReplay(w: World, h: HandlerId)
    requires Enabled(w, ReplayedCall(h))
    ensures var v, it := Next(w, ReplayedCall(h)), w.handlers[h];
      v.ledger == w.ledger
      && if Admits(w.ledger, it.key.attempt, it.fence)
         then exists i :: 0 <= i < |w.ledger.rows| && w.ledger.rows[i].key == it.key
                && v.handlers == w.handlers[h := it.(stage := Resolved(i, w.ledger.rows[i].state))]
         else v.handlers == w.handlers - {h}
  {
    assert w.ledger.rows[Find(w.ledger.rows, w.handlers[h].key)].key == w.handlers[h].key;
  }

  /** Row `i` is the row of the call after its transaction: one that was there, or a new one, prepared. */
  predicate IsRowOf(w: World, v: World, h: HandlerId, i: nat)
    requires h in w.handlers && w.handlers[h].stage.Chosen?
  {
    var it := w.handlers[h];
    i < |v.ledger.rows| && v.ledger.rows[i].key == it.key
    && v.ledger.rows == (if i < |w.ledger.rows| then w.ledger.rows
                         else w.ledger.rows + [Row(it.key, it.stage.context, it.stage.directive, OpState.Prepared, 0)])
    && v.handlers == w.handlers[h := it.(stage := Resolved(i, v.ledger.rows[i].state))]
  }

  /** The transaction of a call: it looks again if its source's directive was taken meanwhile, is refused
      once the fence does not hold, and otherwise has the one row of its key. */
  lemma CallAfterTransaction(w: World, h: HandlerId)
    requires Enabled(w, Transacted(h))
    ensures var v, it := Next(w, Transacted(h)), w.handlers[h];
      if it.stage.directive && it.stage.context in w.ledger.consumption then v == w.(handlers := w.handlers[h := it.(stage := Selecting)])
      else if !Admits(w.ledger, it.key.attempt, it.fence) then v == w.(handlers := w.handlers - {h})
      else exists i :: 0 <= i <= |w.ledger.rows| && IsRowOf(w, v, h, i)
  {
    var v, it := Next(w, Transacted(h)), w.handlers[h];
    if !(it.stage.directive && it.stage.context in w.ledger.consumption) && Admits(w.ledger, it.key.attempt, it.fence) {
      assert IsRowOf(w, v, h, Find(w.ledger.rows, it.key));
    }
  }

  // ---------------------------------------------------------------- the directive of a source

  /** The transaction binds the directive of source `c`: nothing holds it, the fence does, and the row of the
      call is new or belongs to this source. */
  predicate Binds(w: World, ev: Event, c: ContextId)
  {
    ev.Transacted? && ev.h in w.handlers && w.handlers[ev.h].stage == Chosen(c, true) && c !in w.ledger.consumption
    && Admits(w.ledger, w.handlers[ev.h].key.attempt, w.handlers[ev.h].fence)
    && forall row <- w.ledger.rows :: row.key == w.handlers[ev.h].key ==> row.context == c
  }

  /** The step proves that row `i` had no effect. */
  predicate Disproves(w: World, ev: Event, i: nat)
  {
    (Writes(w, ev, i) && ev.ActionThrew? && ev.noEffect) || (Decides(w, ev, i) && !ev.done)
  }

  lemma BindsIsFound(w: World, h: HandlerId, c: ContextId)
    requires Inv(w.ledger) && Enabled(w, Transacted(h))
    ensures var i := Find(w.ledger.rows, w.handlers[h].key);
      (forall row <- w.ledger.rows :: row.key == w.handlers[h].key ==> row.context == c)
      <==> (i == |w.ledger.rows| || w.ledger.rows[i].context == c)
  {
    var i := Find(w.ledger.rows, w.handlers[h].key);
    if i < |w.ledger.rows| {
      assert w.ledger.rows[i] in w.ledger.rows;
    }
  }

  lemma TransactionBinds(w: World, h: HandlerId, c: ContextId)
    requires Inv(w.ledger) && Enabled(w, Transacted(h))
    ensures var l := Next(w, Transacted(h)).ledger;
      (c in l.consumption <==> c in w.ledger.consumption || Binds(w, Transacted(h), c))
      && (c in w.ledger.consumption ==> l.consumption[c] == w.ledger.consumption[c])
      && (Binds(w, Transacted(h), c) ==> l.consumption[c] < |l.rows| && l.rows[l.consumption[c]].key == w.handlers[h].key)
  {
    BindsIsFound(w, h, c);
  }

  lemma UnboundKeeps(l: Ledger, op: OperationId, c: ContextId)
    ensures c in Unbound(l.consumption, op) <==> c in l.consumption && l.consumption[c] != op
    ensures c in Unbound(l.consumption, op) ==> Unbound(l.consumption, op)[c] == l.consumption[c]
  {
  }

  /** The directive of a source after any step: it is given back exactly when the step proves that the row
      it is bound to had no effect, and bound by nothing but a transaction. */
  lemma DirectiveAfter(w: World, ev: Event, c: ContextId)
    requires Inv(w.ledger) && Enabled(w, ev)
    ensures var l, m := w.ledger, Next(w, ev).ledger;
      (c in m.consumption <==> Binds(w, ev, c) || (c in l.consumption && !Disproves(w, ev, l.consumption[c])))
      && (c in l.consumption && c in m.consumption ==> m.consumption[c] == l.consumption[c])
      && (Binds(w, ev, c) ==> m.consumption[c] < |m.rows| && m.rows[m.consumption[c]].key == w.handlers[ev.h].key)
  {
    match ev
    case Transacted(h) => TransactionBinds(w, h, c);
    case ActionReturned(h) => UnboundKeeps(w.ledger, w.handlers[h].stage.op, c);
    case ActionThrew(h, _) => UnboundKeeps(w.ledger, w.handlers[h].stage.op, c);
    case Recovered(op, _) => UnboundKeeps(w.ledger, op, c);
    case _ =>
  }

  // ---------------------------------------------------------------- the fence of an attempt

  /** An attempt is opened once, and closed by its terminalization, which raises its fence. */
  lemma AttemptAfter(w: World, ev: Event, attempt: AttemptId)
    requires Enabled(w, ev)
    ensures var before, after := w.ledger.attempts, Next(w, ev).ledger.attempts;
      (attempt in after <==> attempt in before || ev == AttemptOpened(attempt))
      && (attempt in before ==>
            after[attempt] == if ev == AttemptTerminalized(attempt) && before[attempt].accepting
                              then Attempt(false, before[attempt].fence + 1) else before[attempt])
      && (ev == AttemptOpened(attempt) ==> after[attempt] == Attempt(true, 0))
  {
  }

  predicate IsClosed(w: World, attempt: AttemptId)
  {
    attempt in w.ledger.attempts && !w.ledger.attempts[attempt].accepting
  }

  /** The rows of one attempt, and how often their actions have been started. */
  predicate SameCalls(w: World, v: World, attempt: AttemptId)
  {
    |w.ledger.rows| <= |v.ledger.rows|
    && (forall i :: 0 <= i < |w.ledger.rows| ==>
          v.ledger.rows[i].key == w.ledger.rows[i].key
          && (w.ledger.rows[i].key.attempt == attempt ==> v.ledger.rows[i].actions == w.ledger.rows[i].actions))
    && forall i :: |w.ledger.rows| <= i < |v.ledger.rows| ==> v.ledger.rows[i].key.attempt != attempt
  }

  lemma ClosedStep(w: World, ev: Event, attempt: AttemptId)
    requires Enabled(w, ev) && IsClosed(w, attempt)
    ensures IsClosed(Next(w, ev), attempt) && SameCalls(w, Next(w, ev), attempt)
  {
    AttemptAfter(w, ev, attempt);
    forall i | 0 <= i < |w.ledger.rows|
      ensures var rows := Next(w, ev).ledger.rows;
        i < |rows| && rows[i].key == w.ledger.rows[i].key
        && (w.ledger.rows[i].key.attempt == attempt ==> rows[i].actions == w.ledger.rows[i].actions)
    {
      RowAfter(w, ev, i);
    }
  }

  lemma SameCallsTrans(a: World, b: World, c: World, attempt: AttemptId)
    requires SameCalls(a, b, attempt) && SameCalls(b, c, attempt)
    ensures SameCalls(a, c, attempt)
  {
  }

  /** Over every run: once an attempt is terminalized it stays closed, no row is prepared for it any more,
      and no action of its rows is started, whatever calls are still under way. */
  lemma {:induction false} NothingStartsAfterClose(states: seq<World>, events: seq<Event>, i: nat, j: nat, attempt: AttemptId)
    requires IsRun(Init, Step, states, events) && i <= j < |states| && IsClosed(states[i], attempt)
    ensures IsClosed(states[j], attempt) && SameCalls(states[i], states[j], attempt)
    decreases j
  {
    if i < j {
      NothingStartsAfterClose(states, events, i, j - 1, attempt);
      assert Step(states[j - 1], events[j - 1], states[j - 1 + 1]);
      ClosedStep(states[j - 1], events[j - 1], attempt);
      SameCallsTrans(states[i], states[j - 1], states[j], attempt);
    }
  }
}

/**
 What the handlers of `Dispatcher` leave of the native side: a turn that ends frees it for the next
 start, and a turn that an attempt is bound to is never exchanged for another.
 */
module NativeSide {
  import opened Common
  import opened TurnCapacity
  import opened Dispatcher

  /** Nothing here keeps `pump` from starting the next turn. */
  predicate IsFree(c: Core)
  {
    c.current.None? && !c.nativeBusy && c.steeringPause.None?
  }

  // ---------------------------------------------------------------- one handler, any state

  lemma NotifiedAnnouncesNothing(c: Core, id: AttemptId, turn: TurnId, terminal: bool)
    ensures ConfirmNotified(c, id, turn, terminal).0.terminals == c.terminals
  {
  }

  lemma ConcludeFrees(c: Core, turn: TurnId)
    ensures IsFree(Conclude(c, turn)) && Conclude(c, turn).store == c.store
  {
  }

  lemma CorrelateOnlyPicks(c: Core, turn: TurnSnapshot)
    ensures var (d, correlated) := Correlate(c, turn); d == c.(current := d.current)
  {
  }

  lemma ConfirmedAnnounces(c: Core, id: AttemptId, turn: TurnId, early: bool)
    ensures var d := StartedConfirmed(c, id, turn, early); d.terminals != c.terminals ==> IsFree(d)
  {
    NotifiedAnnouncesNothing(c, id, turn, early);
    ConcludeFrees(ConfirmNotified(c, id, turn, early).0, turn);
  }

  lemma StartedAnnounces(c: Core, turn: TurnSnapshot)
    ensures Started(c, turn).terminals != c.terminals ==> IsFree(Started(c, turn))
  {
    CorrelateOnlyPicks(c.(nativeBusy := true), turn);
    var (d, correlated) := Correlate(c.(nativeBusy := true), turn);
    if correlated.Some? {
      var early := HasEarly(d, correlated.value, turn.id);
      ConfirmedAnnounces(if early then ClearEarly(d, correlated.value) else d, correlated.value, turn.id, early);
    }
  }

  lemma TerminalOfStartAnnounces(c: Core, id: AttemptId, starting: AttemptView, awaited: bool, turn: TurnSnapshot)
    ensures var d := TerminalOfStart(c, id, starting, awaited, turn); d.terminals != c.terminals ==> IsFree(d)
  {
    if id in turn.clients {
      NotifiedAnnouncesNothing(c, id, turn.id, true);
      ConcludeFrees(ConfirmNotified(c, id, turn.id, true).0, turn.id);
    }
  }

  lemma UnboundAnnounces(c: Core, starting: AttemptView, awaited: bool, turn: TurnSnapshot)
    ensures var e := Correlate(c, turn); e.1.Some? ==>
      var d := TerminalOfStart(e.0, e.1.value, starting, awaited, turn); d.terminals != c.terminals ==> IsFree(d)
    ensures var d := TerminalOfStart(c, starting.id, starting, awaited, turn); d.terminals != c.terminals ==> IsFree(d)
  {
    CorrelateOnlyPicks(c, turn);
    var e := Correlate(c, turn);
    if e.1.Some? { TerminalOfStartAnnounces(e.0, e.1.value, starting, awaited, turn); }
    TerminalOfStartAnnounces(c, starting.id, starting, awaited, turn);
  }

  lemma TerminalAnnounces(c: Core, inFlight: Option<AttemptId>, turn: TurnSnapshot)
    ensures Terminal(c, inFlight, turn).terminals != c.terminals ==> IsFree(Terminal(c, inFlight, turn))
  {
    var d := c.(pumpPaused := false);
    var after := Terminal(c, inFlight, turn);
    if d.current.None? {
      assert after.terminals == c.terminals;
    } else {
      var starting := d.current.value;
      var ended := Conclude(d.(store := BeginTerminalizing(d.store, starting.id, turn.id)), turn.id);
      ConcludeFrees(d.(store := BeginTerminalizing(d.store, starting.id, turn.id)), turn.id);
      if after != ended {
        UnboundAnnounces(d, starting, inFlight == Some(starting.id), turn);
        CorrelateOnlyPicks(d, turn);
      }
    }
  }

  lemma AnswerAnnounces(c: Core, id: AttemptId, context: ContextId, claim: Claim, turn: TurnSnapshot)
    ensures StartAnswered(c, id, context, claim, turn).terminals != c.terminals ==> IsFree(StartAnswered(c, id, context, claim, turn))
  {
    var terminal := HasEarly(c, id, turn.id) || turn.terminal;
    var d := ClearEarly(c, id);
    var (pool, outcome) := Bind(d.pool, claim, turn.id);
    var e := d.(pool := pool, provisional := if outcome.Done? then d.provisional - {id} else d.provisional);
    assert e.terminals == c.terminals;
    BoundAnnounces(e, id, context, turn.id, terminal);
    assert StartAnswered(c, id, context, claim, turn) == AnsweredBound(e, id, context, turn.id, terminal)
      || StartAnswered(c, id, context, claim, turn) == PauseIdentityConflict(d.(pool := pool), id);
  }

  lemma BoundAnnounces(c: Core, id: AttemptId, context: ContextId, turn: TurnId, terminal: bool)
    ensures AnsweredBound(c, id, context, turn, terminal).terminals != c.terminals ==> IsFree(AnsweredBound(c, id, context, turn, terminal))
  {
  }

  /** A handler that announces the end of a turn leaves the native side free. */
  lemma AnnouncedTurnFrees(c: Core, inFlight: Option<AttemptId>, turn: TurnSnapshot, id: AttemptId, context: ContextId, claim: Claim)
    ensures Terminal(c, inFlight, turn).terminals != c.terminals ==> IsFree(Terminal(c, inFlight, turn))
    ensures Started(c, turn).terminals != c.terminals ==> IsFree(Started(c, turn))
    ensures StartAnswered(c, id, context, claim, turn).terminals != c.terminals ==> IsFree(StartAnswered(c, id, context, claim, turn))
  {
    TerminalAnnounces(c, inFlight, turn);
    StartedAnnounces(c, turn);
    AnswerAnnounces(c, id, context, claim, turn);
  }

  /** The terminal notification of the current attempt's turn ends it, whatever else is going on; one that
      comes while no start is unbound frees the native side too. */
  lemma TerminalOfCurrent(c: Core, inFlight: Option<AttemptId>, turn: TurnSnapshot)
    requires c.current.Some? ==> c.current.value.turn.Some?
    ensures var d := Terminal(c, inFlight, turn); !d.nativeBusy && !d.pumpPaused
    ensures c.current.Some? && c.current.value.turn == Some(turn.id) ==>
      var d := Terminal(c, inFlight, turn);
      IsFree(d) && d.terminals == if turn.id in c.published then c.terminals else c.terminals + [turn.id]
  {
  }

  lemma ConfirmedIsBusy(c: Core, id: AttemptId, turn: TurnId, early: bool)
    ensures var d := StartedConfirmed(c, id, turn, early); d.nativeBusy == c.nativeBusy || (IsFree(d) && early)
  {
    var (d, confirmation) := ConfirmNotified(c, id, turn, early);
    assert d.nativeBusy == c.nativeBusy;
    ConcludeFrees(d, turn);
  }

  /** A started notification always makes the native side busy, unless the turn was already over. */
  lemma StartedIsBusy(c: Core, turn: TurnSnapshot)
    ensures var d := Started(c, turn); d.nativeBusy || (IsFree(d) && c.earlyAttempt.Some? && exists t <- c.early :: t.id == turn.id)
  {
    CorrelateOnlyPicks(c.(nativeBusy := true), turn);
    var (d, correlated) := Correlate(c.(nativeBusy := true), turn);
    if correlated.Some? {
      var early := HasEarly(d, correlated.value, turn.id);
      ConfirmedIsBusy(if early then ClearEarly(d, correlated.value) else d, correlated.value, turn.id, early);
      if early { assert c.early[EarlyIndex(c.early, turn.id)] in c.early; }
    }
  }

  // ---------------------------------------------------------------- a bound turn stays

  /** No row disappears, changes its context, opens to tools again, or loses the turn it is bound to. */
  predicate KeepsTurns(before: Store, after: Store)
  {
    |after| == |before|
    && forall i :: 0 <= i < |before| ==>
         after[i].context == before[i].context && after[i].state == before[i].state
         && (before[i].turn.Some? ==> after[i].turn == before[i].turn) && (after[i].accepting ==> before[i].accepting)
  }

  lemma ConfirmKeepsTurns(store: Store, id: AttemptId, context: ContextId, turn: TurnId, terminal: bool)
    ensures var (after, confirmation) := ConfirmStart(store, id, context, turn, terminal);
      KeepsTurns(store, after) && (confirmation == Conflicting ==> after == store)
      && (confirmation != Conflicting ==> id < |store| && after[id].turn == Some(turn) && (terminal ==> !after[id].accepting || after[id].state != RowActive))
  {
  }

  lemma NotifiedKeepsTurns(c: Core, id: AttemptId, turn: TurnId, terminal: bool)
    ensures KeepsTurns(c.store, ConfirmNotified(c, id, turn, terminal).0.store)
  {
    if c.current.Some? { ConfirmKeepsTurns(c.store, id, c.current.value.context, turn, terminal); }
  }

  lemma ConfirmedKeepsTurns(c: Core, id: AttemptId, turn: TurnId, early: bool)
    ensures KeepsTurns(c.store, StartedConfirmed(c, id, turn, early).store)
  {
    var (d, confirmation) := ConfirmNotified(c, id, turn, early);
    NotifiedKeepsTurns(c, id, turn, early);
    ConcludeFrees(d, turn);
    assert StartedConfirmed(c, id, turn, early).store == d.store;
  }

  lemma StartedKeepsTurns(c: Core, turn: TurnSnapshot)
    ensures KeepsTurns(c.store, Started(c, turn).store)
  {
    CorrelateOnlyPicks(c.(nativeBusy := true), turn);
    var (d, correlated) := Correlate(c.(nativeBusy := true), turn);
    if correlated.Some? {
      var early := HasEarly(d, correlated.value, turn.id);
      ConfirmedKeepsTurns(if early then ClearEarly(d, correlated.value) else d, correlated.value, turn.id, early);
    }
  }

  lemma TerminalOfStartKeepsTurns(c: Core, id: AttemptId, starting: AttemptView, awaited: bool, turn: TurnSnapshot)
    ensures KeepsTurns(c.store, TerminalOfStart(c, id, starting, awaited, turn).store)
  {
    if id in turn.clients { NotifiedKeepsTurns(c, id, turn.id, true); } else { UnknownKeepsTurns(c, id, starting, awaited, turn); }
  }

  lemma UnknownKeepsTurns(c: Core, id: AttemptId, starting: AttemptView, awaited: bool, turn: TurnSnapshot)
    requires id !in turn.clients
    ensures KeepsTurns(c.store, TerminalOfStart(c, id, starting, awaited, turn).store)
  {
    var context := if id < |c.store| then c.store[id].context else starting.context;
    assert TerminalOfStart(c, id, starting, awaited, turn).store == ObserveUnknownStartTerminal(c.store, id, context);
  }

  lemma AnswerKeepsTurns(c: Core, id: AttemptId, context: ContextId, claim: Claim, turn: TurnSnapshot)
    ensures KeepsTurns(c.store, StartAnswered(c, id, context, claim, turn).store)
  {
    var terminal := HasEarly(c, id, turn.id) || turn.terminal;
    ConfirmKeepsTurns(c.store, id, context, turn.id, terminal);
    ClearedAnswerStore(ClearEarly(c, id), id, context, claim, turn.id, terminal);
  }

  lemma ClearedAnswerStore(c: Core, id: AttemptId, context: ContextId, claim: Claim, turn: TurnId, terminal: bool)
    ensures var after := AnsweredClear(c, id, context, claim, turn, terminal).store;
      after == c.store || after == ConfirmStart(c.store, id, context, turn, terminal).0
  {
    var (pool, outcome) := Bind(c.pool, claim, turn);
    BoundAnswerStore(c.(pool := pool, provisional := if outcome.Done? then c.provisional - {id} else c.provisional), id, context, turn, terminal);
  }

  lemma BoundAnswerStore(c: Core, id: AttemptId, context: ContextId, turn: TurnId, terminal: bool)
    ensures AnsweredBound(c, id, context, turn, terminal).store == ConfirmStart(c.store, id, context, turn, terminal).0
  {
  }

  lemma BeginKeepsTurns(store: Store, id: AttemptId, turn: TurnId)
    ensures KeepsTurns(store, BeginTerminalizing(store, id, turn))
  {
  }

  lemma UnboundKeepsTurns(c: Core, starting: AttemptView, awaited: bool, turn: TurnSnapshot)
    ensures var e := Correlate(c, turn); e.1.Some? ==> KeepsTurns(c.store, TerminalOfStart(e.0, e.1.value, starting, awaited, turn).store)
    ensures KeepsTurns(c.store, TerminalOfStart(c, starting.id, starting, awaited, turn).store)
  {
    CorrelateOnlyPicks(c, turn);
    var e := Correlate(c, turn);
    if e.1.Some? { TerminalOfStartKeepsTurns(e.0, e.1.value, starting, awaited, turn); }
    TerminalOfStartKeepsTurns(c, starting.id, starting, awaited, turn);
  }

  lemma TerminalKeepsTurns(c: Core, inFlight: Option<AttemptId>, turn: TurnSnapshot)
    ensures KeepsTurns(c.store, Terminal(c, inFlight, turn).store)
  {
    var d := c.(pumpPaused := false);
    var after := Terminal(c, inFlight, turn).store;
    if d.current.None? {
      assert after == c.store;
    } else {
      var starting := d.current.value;
      var begun := BeginTerminalizing(d.store, starting.id, turn.id);
      BeginKeepsTurns(d.store, starting.id, turn.id);
      ConcludeFrees(d.(store := begun), turn.id);
      if after != begun && after != c.store {
        UnboundKeepsTurns(d, starting, inFlight == Some(starting.id), turn);
        CorrelateOnlyPicks(d, turn);
      }
    }
  }

  /** Over one handler, for every row: a turn that is bound stays bound. */
  lemma BoundTurnStays(c: Core, inFlight: Option<AttemptId>, turn: TurnSnapshot, id: AttemptId, context: ContextId, claim: Claim)
    ensures KeepsTurns(c.store, Terminal(c, inFlight, turn).store)
    ensures KeepsTurns(c.store, Started(c, turn).store)
    ensures KeepsTurns(c.store, StartAnswered(c, id, context, claim, turn).store)
  {
    StartedKeepsTurns(c, turn);
    TerminalKeepsTurns(c, inFlight, turn);
    AnswerKeepsTurns(c, id, context, claim, turn);
  }

  /** The answer of a start whose attempt is bound to another turn is a conflict: it pauses the pump, and
      leaves the rows, the current attempt and the announced turns as they are. */
  lemma OtherTurnConflicts(c: Core, id: AttemptId, context: ContextId, claim: Claim, turn: TurnSnapshot)
    requires id < |c.store| && c.store[id].turn.Some? && c.store[id].turn != Some(turn.id)
    ensures var d := StartAnswered(c, id, context, claim, turn);
      d.pumpPaused && d.store == c.store && d.current == c.current && d.terminals == c.terminals && d.nativeBusy == c.nativeBusy
      && (c.current.Some? && c.current.value.id == id ==> d.steeringPause == Some(id))
  {
    var terminal := HasEarly(c, id, turn.id) || turn.terminal;
    var e := ClearEarly(c, id);
    OtherTurnIsRefused(c.store, id, context, turn.id, terminal);
    RefusedAnswer(e, id, context, claim, turn.id, terminal);
  }

  /** So is the answer of a start whose claim is active with another turn, unless the attempt is bound to the
      answered turn already. */
  lemma OtherClaimConflicts(c: Core, id: AttemptId, context: ContextId, claim: Claim, turn: TurnSnapshot)
    requires Unique(c.pool.claims) && exists s <- c.pool.claims :: s.claim == claim && s.phase.Active? && s.phase.turn != turn.id
    requires id < |c.store| ==> c.store[id].turn != Some(turn.id)
    ensures var d := StartAnswered(c, id, context, claim, turn);
      d.pumpPaused && d.store == c.store && d.current == c.current && d.terminals == c.terminals && d.nativeBusy == c.nativeBusy
      && d.pool == c.pool && (c.current.Some? && c.current.value.id == id ==> d.steeringPause == Some(id))
  {
    BindConflictIff(c.pool, claim, turn.id);
    assert ClearEarly(c, id).pool == c.pool && ClearEarly(c, id).store == c.store;
  }

  lemma OtherTurnIsRefused(store: Store, id: AttemptId, context: ContextId, turn: TurnId, terminal: bool)
    requires id < |store| && store[id].turn.Some? && store[id].turn != Some(turn)
    ensures ConfirmStart(store, id, context, turn, terminal) == (store, Conflicting)
  {
  }

  lemma RefusedAnswer(c: Core, id: AttemptId, context: ContextId, claim: Claim, turn: TurnId, terminal: bool)
    requires ConfirmStart(c.store, id, context, turn, terminal) == (c.store, Conflicting)
    ensures var d := AnsweredClear(c, id, context, claim, turn, terminal);
      d == PauseIdentityConflict(c.(pool := d.pool, provisional := d.provisional), id)
  {
    var (pool, outcome) := Bind(c.pool, claim, turn);
    var e := c.(pool := pool, provisional := if outcome.Done? then c.provisional - {id} else c.provisional);
    assert AnsweredBound(e, id, context, turn, terminal) == PauseIdentityConflict(e, id);
  }

  // ---------------------------------------------------------------- one start, any order of events

  predicate IsEnded(shape: Shape)
  {
    shape.Closed? || shape.Leaked?
  }

  /** A terminal notification, or the answer of a start that was not superseded meanwhile. */
  predicate Frees(c: Core, start: Start, ev: Dispatcher.Event)
    requires start.id < |c.store| && c.store[start.id].member.Some?
  {
    ev.TerminalNote? || (ev.Response? && c.store[start.id].member.value.state != Superseded)
  }

  lemma AnswerFrees(c: Core, start: Start, shape: Shape, terminal: bool)
    requires Matches(c, start, shape) && IsEnded(shape)
    ensures var d := StartAnswered(c, start.id, start.context, start.claim, SnapshotOf(start, terminal, true));
      d.steeringPause == (if Frees(c, start, Response(terminal)) then None else c.steeringPause)
      && d.nativeBusy == (c.nativeBusy && !Frees(c, start, Response(terminal)))
  {
    EndedIsBound(c, start, shape, terminal);
  }

  /** The answer of a start that had not ended, and what it leaves of the native side and the pump. */
  predicate AnswerIs(c: Core, d: Core, ends: bool)
  {
    d.pumpPaused == c.pumpPaused
    && if ends then !d.nativeBusy && d.steeringPause.None? else d.nativeBusy == c.nativeBusy && d.steeringPause == c.steeringPause
  }

  lemma OpenAnswerIs(c: Core, start: Start, terminal: bool)
    requires Matches(c, start, Open)
    ensures AnswerIs(c, StartAnswered(c, start.id, start.context, start.claim, SnapshotOf(start, terminal, true)), terminal)
  {
    OpenIsBound(c, start, terminal);
  }

  lemma WaitingAnswerIs(c: Core, start: Start, buffered: bool, terminal: bool)
    requires Matches(c, start, Waiting(buffered))
    ensures AnswerIs(c, StartAnswered(c, start.id, start.context, start.claim, SnapshotOf(start, terminal, true)), buffered || terminal)
  {
    WaitingIsBound(c, start, buffered, terminal);
  }

  lemma AnswerCloses(c: Core, start: Start, shape: Shape, terminal: bool)
    requires Matches(c, start, shape) && !IsEnded(shape)
    ensures AnswerIs(c, StartAnswered(c, start.id, start.context, start.claim, SnapshotOf(start, terminal, true)),
                     IsEnded(NextShape(shape, Response(terminal))))
  {
    if shape == Open { OpenAnswerIs(c, start, terminal); } else { WaitingAnswerIs(c, start, shape.buffered, terminal); }
  }

  lemma StartedNativeSide(c: Core, start: Start, shape: Shape, correlated: bool)
    requires Matches(c, start, shape)
    ensures var d := Started(c, SnapshotOf(start, false, correlated));
      if !IsEnded(shape) && IsEnded(NextShape(shape, StartedNote(correlated))) then !d.nativeBusy && d.steeringPause.None?
      else d.nativeBusy && d.steeringPause == c.steeringPause
  {
    var turn := SnapshotOf(start, false, correlated);
    OnlyThisCorrelates(c.store, turn, start.id);
    if shape.Waiting? && correlated {
      var d := c.(nativeBusy := true);
      var cleared := if shape.buffered then ClearEarly(d, start.id) else d;
      assert Matches(cleared, start, Waiting(false));
      WaitingConfirms(cleared, start, false, shape.buffered);
    }
  }

  lemma TerminalNativeSide(c: Core, start: Start, shape: Shape, inFlight: Option<AttemptId>, correlated: bool)
    requires Matches(c, start, shape) && (shape.Waiting? ==> inFlight == Some(start.id))
    ensures var d := Terminal(c, inFlight, SnapshotOf(start, true, correlated));
      if IsEnded(NextShape(shape, TerminalNote(correlated))) then
        !d.nativeBusy && d.steeringPause == if IsEnded(shape) then c.steeringPause else None
      else d.nativeBusy == c.nativeBusy && d.steeringPause == c.steeringPause
  {
    if shape.Waiting? {
      WaitingTerminalIsOfStart(c, start, shape.buffered, correlated);
      if correlated { WaitingConfirms(c.(pumpPaused := false), start, shape.buffered, true); }
    }
  }

  /** What each event does to the native side: the event that ends the turn frees it; before that only a
      started notification touches it, and afterwards such a notification makes it busy until the next
      terminal notification or answer. */
  lemma EventMovesNativeSide(c: Core, start: Start, shape: Shape, responded: bool, ev: Dispatcher.Event)
    requires Matches(c, start, shape) && (responded ==> !shape.Waiting?)
    ensures start.id < |c.store| && c.store[start.id].member.Some?
    ensures var d := Handle(c, start, responded, ev);
      if IsEnded(shape) then d.nativeBusy == (ev.StartedNote? || (c.nativeBusy && !Frees(c, start, ev)))
      else if IsEnded(NextShape(shape, ev)) then !d.nativeBusy
      else d.nativeBusy == (ev.StartedNote? || c.nativeBusy)
    ensures var d := Handle(c, start, responded, ev);
      IsEnded(NextShape(shape, ev)) && (!IsEnded(shape) || c.steeringPause.None?) ==> d.steeringPause.None?
  {
    match ev
    case StartedNote(correlated) => StartedNativeSide(c, start, shape, correlated);
    case TerminalNote(correlated) => TerminalNativeSide(c, start, shape, if responded then None else Some(start.id), correlated);
    case Response(terminal) => if IsEnded(shape) { AnswerFrees(c, start, shape, terminal); } else { AnswerCloses(c, start, shape, terminal); }
    case _ =>
  }

  /** The answer of a start whose attempt was superseded meanwhile. */
  predicate Conflicts(c: Core, start: Start, shape: Shape, ev: Dispatcher.Event)
    requires start.id < |c.store| && c.store[start.id].member.Some?
  {
    ev.Response? && IsEnded(shape) && c.store[start.id].member.value.state == Superseded
  }

  lemma AnswerMovesPump(c: Core, start: Start, shape: Shape, terminal: bool)
    requires Matches(c, start, shape)
    ensures StartAnswered(c, start.id, start.context, start.claim, SnapshotOf(start, terminal, true)).pumpPaused
      == (c.pumpPaused || Conflicts(c, start, shape, Response(terminal)))
  {
    if IsEnded(shape) { EndedIsBound(c, start, shape, terminal); } else { AnswerCloses(c, start, shape, terminal); }
  }

  lemma ConfirmedMovesPump(c: Core, id: AttemptId, turn: TurnId, early: bool)
    ensures StartedConfirmed(c, id, turn, early).pumpPaused == (c.pumpPaused || ConfirmNotified(c, id, turn, early).1 == Conflicting)
  {
    var (d, confirmation) := ConfirmNotified(c, id, turn, early);
    assert d.pumpPaused == c.pumpPaused;
  }

  lemma StartedMovesPump(c: Core, start: Start, shape: Shape, correlated: bool)
    requires Matches(c, start, shape)
    ensures Started(c, SnapshotOf(start, false, correlated)).pumpPaused == c.pumpPaused
  {
    var turn := SnapshotOf(start, false, correlated);
    var d := c.(nativeBusy := true);
    OnlyThisCorrelates(c.store, turn, start.id);
    if shape.Waiting? && correlated {
      var cleared := if shape.buffered then ClearEarly(d, start.id) else d;
      assert Matches(cleared, start, Waiting(false));
      WaitingConfirms(cleared, start, false, shape.buffered);
      ConfirmedMovesPump(cleared, start.id, start.turn, shape.buffered);
      assert Started(c, turn) == StartedConfirmed(cleared, start.id, start.turn, shape.buffered);
    } else {
      assert Started(c, turn) == d.(current := Started(c, turn).current);
    }
  }

  lemma TerminalMovesPump(c: Core, start: Start, shape: Shape, inFlight: Option<AttemptId>, correlated: bool)
    requires Matches(c, start, shape) && (shape.Waiting? ==> inFlight == Some(start.id))
    ensures !Terminal(c, inFlight, SnapshotOf(start, true, correlated)).pumpPaused
  {
    if shape.Waiting? {
      WaitingTerminalIsOfStart(c, start, shape.buffered, correlated);
      if correlated { WaitingConfirms(c.(pumpPaused := false), start, shape.buffered, true); }
    }
  }

  /** What each event does to the pump: a terminal notification lets it go on, and only an answer that
      conflicts, for an attempt that was superseded before, pauses it. */
  lemma EventMovesPump(c: Core, start: Start, shape: Shape, responded: bool, ev: Dispatcher.Event)
    requires Matches(c, start, shape) && (responded ==> !shape.Waiting?)
    ensures start.id < |c.store| && c.store[start.id].member.Some?
    ensures Handle(c, start, responded, ev).pumpPaused <==>
      !ev.TerminalNote? && (c.pumpPaused || Conflicts(c, start, shape, ev))
  {
    match ev
    case StartedNote(correlated) => StartedMovesPump(c, start, shape, correlated);
    case TerminalNote(correlated) => TerminalMovesPump(c, start, shape, if responded then None else Some(start.id), correlated);
    case Response(terminal) => AnswerMovesPump(c, start, shape, terminal);
    case _ =>
  }

  /** Event `k` leaves the native side as busy as it is. */
  predicate LeavesBusy(c: Core, start: Start, events: seq<Dispatcher.Event>, k: nat)
    requires k < |events|
  {
    var d := After(c, start, events[..k]);
    start.id < |d.store| && d.store[start.id].member.Some? && !Frees(d, start, events[k])
  }

  /** The started notification at `i` came after the turn had ended, and nothing has freed the native side since. */
  predicate BusySince(c: Core, start: Start, events: seq<Dispatcher.Event>, i: nat)
    requires i < |events|
  {
    events[i].StartedNote? && IsEnded(ShapeAfter(events[..i])) && BusyAfter(c, start, events, i)
  }

  predicate BusyAfter(c: Core, start: Start, events: seq<Dispatcher.Event>, i: nat)
  {
    forall k: nat :: i < k < |events| ==> LeavesBusy(c, start, events, k)
  }

  lemma SamePrefix(c: Core, start: Start, events: seq<Dispatcher.Event>, k: nat)
    requires k < |events| - 1
    ensures events[..|events| - 1][..k] == events[..k] && events[..|events| - 1][k] == events[k]
    ensures LeavesBusy(c, start, events, k) <==> LeavesBusy(c, start, events[..|events| - 1], k)
  {
    assert events[..|events| - 1][..k] == events[..k];
  }

  lemma StaysBusyAfter(c: Core, start: Start, events: seq<Dispatcher.Event>, i: nat)
    requires i < |events| - 1
    requires BusyAfter(c, start, events[..|events| - 1], i) && LeavesBusy(c, start, events, |events| - 1)
    ensures BusyAfter(c, start, events, i)
  {
    forall k: nat | i < k < |events|
      ensures LeavesBusy(c, start, events, k)
    {
      if k < |events| - 1 { SamePrefix(c, start, events, k); }
    }
  }

  lemma WasBusyAfter(c: Core, start: Start, events: seq<Dispatcher.Event>, before: seq<Dispatcher.Event>, i: nat)
    requires i < |events| - 1 && BusyAfter(c, start, events, i) && before == events[..|events| - 1]
    ensures BusyAfter(c, start, before, i)
  {
    forall k: nat | i < k < |before|
      ensures LeavesBusy(c, start, before, k)
    {
      SamePrefix(c, start, events, k);
    }
  }

  lemma BusyAfterStep(c: Core, start: Start, events: seq<Dispatcher.Event>, i: nat)
    requires i < |events| - 1
    ensures BusyAfter(c, start, events, i) <==>
      BusyAfter(c, start, events[..|events| - 1], i) && LeavesBusy(c, start, events, |events| - 1)
  {
    if BusyAfter(c, start, events, i) { WasBusyAfter(c, start, events, events[..|events| - 1], i); }
    if BusyAfter(c, start, events[..|events| - 1], i) && LeavesBusy(c, start, events, |events| - 1) { StaysBusyAfter(c, start, events, i); }
  }

  lemma BusyStep(c: Core, start: Start, events: seq<Dispatcher.Event>, i: nat)
    requires i < |events| - 1
    ensures var m := |events| - 1;
      BusySince(c, start, events, i) <==> BusySince(c, start, events[..m], i) && LeavesBusy(c, start, events, m)
  {
    var before := events[..|events| - 1];
    assert before[..i] == events[..i] && before[i] == events[i];
    BusyAfterStep(c, start, events, i);
  }

  /** The native side is busy with a notification that came too late. */
  predicate BusyLate(c: Core, start: Start, events: seq<Dispatcher.Event>)
  {
    exists i :: 0 <= i < |events| && BusySince(c, start, events, i)
  }

  lemma BusyLateStep(c: Core, start: Start, events: seq<Dispatcher.Event>)
    requires events != []
    ensures var m := |events| - 1;
      BusyLate(c, start, events) <==>
        (events[m].StartedNote? && IsEnded(ShapeAfter(events[..m]))) || (BusyLate(c, start, events[..m]) && LeavesBusy(c, start, events, m))
  {
    var m := |events| - 1;
    forall i | 0 <= i < m
      ensures BusySince(c, start, events, i) <==> BusySince(c, start, events[..m], i) && LeavesBusy(c, start, events, m)
    {
      BusyStep(c, start, events, i);
    }
    assert BusySince(c, start, events, m) <==> events[m].StartedNote? && IsEnded(ShapeAfter(events[..m]));
  }

  /** Busy exactly as `BusyLate` says, once the turn has ended. */
  predicate EndsFree(c: Core, start: Start, events: seq<Dispatcher.Event>)
  {
    var d := After(c, start, events);
    d.current.None? && d.steeringPause.None? && (d.nativeBusy <==> BusyLate(c, start, events))
  }

  /** Over every order of the events of one start: once its turn has ended there is no current attempt and
      no steering pause, and the native side is free for the next turn exactly unless a started
      notification came after the end and no terminal notification or answer has come since. */
  lemma {:induction false} FreeOnceEnded(c: Core, start: Start, events: seq<Dispatcher.Event>)
    requires Matches(c, start, Waiting(false))
    ensures IsEnded(ShapeAfter(events)) ==> EndsFree(c, start, events)
    ensures !IsEnded(ShapeAfter(events)) ==> !BusyLate(c, start, events)
    decreases |events|
  {
    if events != [] {
      var m := |events| - 1;
      FreeOnceEnded(c, start, events[..m]);
      ShapeFollows(c, start, events[..m]);
      BusyLateStep(c, start, events);
      FreeStep(c, start, events);
    }
  }

  lemma FreeStep(c: Core, start: Start, events: seq<Dispatcher.Event>)
    requires events != []
    requires var before := events[..|events| - 1];
      Matches(After(c, start, before), start, ShapeAfter(before)) && (Dispatcher.Answered(before) ==> !ShapeAfter(before).Waiting?)
      && (IsEnded(ShapeAfter(before)) ==> EndsFree(c, start, before)) && (!IsEnded(ShapeAfter(before)) ==> !BusyLate(c, start, before))
    requires var m := |events| - 1;
      BusyLate(c, start, events) <==>
        (events[m].StartedNote? && IsEnded(ShapeAfter(events[..m]))) || (BusyLate(c, start, events[..m]) && LeavesBusy(c, start, events, m))
    ensures IsEnded(ShapeAfter(events)) ==> EndsFree(c, start, events)
    ensures !IsEnded(ShapeAfter(events)) ==> !BusyLate(c, start, events)
  {
    var m := |events| - 1;
    var c' := After(c, start, events[..m]);
    EventMovesNativeSide(c', start, ShapeAfter(events[..m]), Dispatcher.Answered(events[..m]), events[m]);
    EventMovesShape(c', start, ShapeAfter(events[..m]), Dispatcher.Answered(events[..m]), events[m]);
  }
}

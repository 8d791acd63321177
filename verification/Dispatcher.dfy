/**
 How `ConversationDispatcher` settles a start: its response, its started notification and its
 terminal notification may come in any order. `Core` is what those handlers read and write, with
 the pool's claim table and the store's attempt rows; every handler is one posted action, so it
 runs without interruption.
 */
module Dispatcher {
  import opened Common
  import opened TurnCapacity

  type AttemptId = nat
  type ContextId = nat

  datatype RowState = RowActive | RowCompleted | RowFailed
  datatype MemberState = StartSubmitting | Uncertain | Submitted | MemberCompleted | MemberFailed | Superseded
  datatype Member = Member(state: MemberState, observed: Option<TurnId>)

  /** An attempt row with its start member; the attempt's id is its index in the store. */
  datatype Row = Row(context: ContextId, turn: Option<TurnId>, accepting: bool, state: RowState, member: Option<Member>)
  type Store = seq<Row>

  datatype AttemptView = AttemptView(id: AttemptId, context: ContextId, turn: Option<TurnId>, accepting: bool)

  /** `clients` are the attempts whose start message appears among the turn's items. */
  datatype TurnSnapshot = TurnSnapshot(id: TurnId, terminal: bool, clients: set<AttemptId>)

  datatype Core = Core(
    current: Option<AttemptView>,
    nativeBusy: bool,
    pumpPaused: bool,
    steeringPause: Option<AttemptId>,
    provisional: map<AttemptId, Claim>,
    early: seq<TurnSnapshot>,
    earlyAttempt: Option<AttemptId>,
    published: seq<TurnId>,
    terminals: seq<TurnId>,
    store: Store,
    pool: Pool,
    endpoint: EndpointId,
    thread: ThreadId,
    earlyCap: nat,
    publishedCap: nat)

  // ---------------------------------------------------------------- the conversation store

  function ViewOf(store: Store, id: AttemptId): AttemptView
    requires id < |store|
  {
    AttemptView(id, store[id].context, store[id].turn, store[id].accepting)
  }

  function Attempt(store: Store, id: AttemptId): Option<AttemptView>
  {
    if id < |store| && store[id].state == RowActive then Some(ViewOf(store, id)) else None
  }

  /** The newest active attempt of a turn. */
  function AttemptForTurn(store: Store, turn: TurnId): Option<AttemptView>
  {
    if store == [] then None
    else
      var last := |store| - 1;
      if store[last].state == RowActive && store[last].turn == Some(turn) then Some(ViewOf(store, last))
      else AttemptForTurn(store[..last], turn)
  }

  predicate Unresolved(row: Row)
  {
    row.member.Some? && (row.member.value.state == StartSubmitting || row.member.value.state == Uncertain)
  }

  datatype Confirmation = NewlyBound | AlreadySame | AlreadyTerminalSame | Conflicting

  function ConfirmStart(store: Store, id: AttemptId, context: ContextId, turn: TurnId, terminal: bool): (Store, Confirmation)
  {
    if id >= |store| || store[id].context != context || store[id].member.None? then (store, Conflicting) else
    var row := store[id];
    var member := row.member.value;
    if row.state != RowActive then
      (store, if (member.state == MemberCompleted || member.state == MemberFailed)
                 && row.turn == Some(turn) && member.observed == Some(turn) then AlreadyTerminalSame else Conflicting)
    else if member.state == Submitted then
      if member.observed != Some(turn) || row.turn != Some(turn) then (store, Conflicting)
      else (if terminal then store[id := row.(accepting := false)] else store,
            if terminal || !row.accepting then AlreadyTerminalSame else AlreadySame)
    else if !Unresolved(row) || row.turn.Some? then (store, Conflicting)
    else
      (store[id := row.(turn := Some(turn), accepting := row.accepting && !terminal,
                        member := Some(Member(Submitted, Some(turn))))], NewlyBound)
  }

  function BeginTerminalizing(store: Store, id: AttemptId, turn: TurnId): Store
  {
    if id < |store| && store[id].state == RowActive && store[id].turn == Some(turn)
    then store[id := store[id].(accepting := false)] else store
  }

  function ObserveUnknownStartTerminal(store: Store, id: AttemptId, context: ContextId): Store
  {
    if id < |store| && store[id].state == RowActive && store[id].context == context && store[id].turn.None?
       && Unresolved(store[id])
    then store[id := store[id].(member := Some(store[id].member.value.(state := Uncertain)))] else store
  }

  // ---------------------------------------------------------------- helpers of the dispatcher

  function Publish(c: Core, turn: TurnId): Core
  {
    if turn in c.published then c
    else c.(published := Evicted(c.published + [turn], c.publishedCap), terminals := c.terminals + [turn])
  }

  function EarlyIndex(early: seq<TurnSnapshot>, turn: TurnId): (i: nat)
    ensures i <= |early|
    ensures i < |early| ==> early[i].id == turn
    ensures forall j :: 0 <= j < i ==> early[j].id != turn
  {
    if early == [] || early[0].id == turn then 0 else 1 + EarlyIndex(early[1..], turn)
  }

  predicate HasEarly(c: Core, id: AttemptId, turn: TurnId)
  {
    c.earlyAttempt == Some(id) && EarlyIndex(c.early, turn) < |c.early|
  }

  function ClearEarly(c: Core, id: AttemptId): Core
  {
    if c.earlyAttempt == Some(id) then c.(early := [], earlyAttempt := None) else c
  }

  function BufferEarly(c: Core, id: AttemptId, turn: TurnSnapshot): Core
  {
    var early := if c.earlyAttempt == Some(id) then c.early else [];
    var i := EarlyIndex(early, turn.id);
    var added := if i < |early| then early[i := turn] else early + [turn];
    c.(early := Evicted(added, c.earlyCap), earlyAttempt := Some(id))
  }

  /** The attempts with an unresolved start whose message is among the turn's items. */
  function CorrelatedAttempts(store: Store, turn: TurnSnapshot): seq<AttemptId>
  {
    if store == [] then []
    else
      var last := |store| - 1;
      CorrelatedAttempts(store[..last], turn) + if Unresolved(store[last]) && last in turn.clients then [last] else []
  }

  /** `correlatedUnresolvedStart`, which also makes the one matching attempt current. */
  function Correlate(c: Core, turn: TurnSnapshot): (Core, Option<AttemptId>)
  {
    if c.current.Some? && c.current.value.turn.None? && c.current.value.id < |c.store|
       && Unresolved(c.store[c.current.value.id]) && c.current.value.id in turn.clients
    then (c, Some(c.current.value.id))
    else
      var matches := CorrelatedAttempts(c.store, turn);
      if |matches| != 1 then (c, None)
      else
        var view := Attempt(c.store, matches[0]);
        (c.(current := view), if view.Some? then Some(matches[0]) else None)
  }

  /** `confirmNotifiedStart`: bind the claim first, then the row. */
  function ConfirmNotified(c: Core, id: AttemptId, turn: TurnId, terminal: bool): (Core, Confirmation)
  {
    if c.current.None? || c.current.value.id != id then (c, Conflicting) else
    var context := c.current.value.context;
    var (pool, claim) :=
      if id in c.provisional then (c.pool, Done(c.provisional[id]))
      else CreateClaim(c.pool, c.endpoint, c.thread, Caller(context));
    if claim.Conflict? then (c, Conflicting) else
    var (bound, outcome) := Bind(pool, claim.value, turn);
    if outcome.Conflict? then (c.(pool := bound), Conflicting) else
    var (store, confirmation) := ConfirmStart(c.store, id, context, turn, terminal);
    (c.(pool := bound, provisional := c.provisional - {id}, store := store), confirmation)
  }

  function PauseIdentityConflict(c: Core, id: AttemptId): Core
  {
    c.(pumpPaused := true,
       steeringPause := if c.current.Some? && c.current.value.id == id then Some(id) else c.steeringPause)
  }

  /** No current attempt, native side free, claim ended, terminal published. */
  function Conclude(c: Core, turn: TurnId): Core
  {
    Publish(c.(current := None, nativeBusy := false, steeringPause := None,
               pool := MarkTurnTerminal(c.pool, TurnKey(c.endpoint, c.thread, turn))), turn)
  }

  // ---------------------------------------------------------------- the three handlers

  function Started(c: Core, turn: TurnSnapshot): Core
  {
    var (d, correlated) := Correlate(c.(nativeBusy := true), turn);
    if correlated.None? then d else
    var id := correlated.value;
    var early := HasEarly(d, id, turn.id);
    StartedConfirmed(if early then ClearEarly(d, id) else d, id, turn.id, early)
  }

  function StartedConfirmed(c: Core, id: AttemptId, turn: TurnId, early: bool): Core
  {
    var (e, confirmation) := ConfirmNotified(c, id, turn, early);
    if confirmation == Conflicting then PauseIdentityConflict(e, id)
    else if early then Conclude(e, turn)
    else if confirmation == NewlyBound then e.(current := Attempt(e.store, id))
    else e
  }

  function Terminal(c: Core, inFlight: Option<AttemptId>, turn: TurnSnapshot): Core
  {
    var d := c.(pumpPaused := false);
    var attempt := if d.current.Some? && d.current.value.turn == Some(turn.id) then d.current else AttemptForTurn(d.store, turn.id);
    if attempt.Some? && attempt.value.turn == Some(turn.id) && d.current.Some? && d.current.value.id == attempt.value.id then
      Conclude(d.(store := BeginTerminalizing(d.store, attempt.value.id, turn.id)), turn.id)
    else if d.current.None? || d.current.value.turn.Some? then d.(nativeBusy := false)
    else
      var starting := d.current.value;
      var awaited := inFlight == Some(starting.id);
      var (e, submission) :=
        if !awaited then Correlate(d, turn)
        else (d, if starting.id < |d.store| && Unresolved(d.store[starting.id]) then Some(starting.id) else None);
      if submission.None? then e else TerminalOfStart(e, submission.value, starting, awaited, turn)
  }

  /** The terminal of a turn that may be the one an unresolved start asked for. */
  function TerminalOfStart(c: Core, id: AttemptId, starting: AttemptView, awaited: bool, turn: TurnSnapshot): Core
  {
    if id in turn.clients then
      var (f, confirmation) := ConfirmNotified(c, id, turn.id, true);
      if confirmation == Conflicting then PauseIdentityConflict(f, id) else Conclude(f, turn.id)
    else
      var context := if id < |c.store| then c.store[id].context else starting.context;
      var f := c.(store := ObserveUnknownStartTerminal(c.store, id, context));
      if awaited then BufferEarly(f, starting.id, turn) else f
  }

  /** The success handler of `launchStart`, for a start of attempt `id` made under `claim`. */
  function StartAnswered(c: Core, id: AttemptId, context: ContextId, claim: Claim, turn: TurnSnapshot): Core
  {
    AnsweredClear(ClearEarly(c, id), id, context, claim, turn.id, HasEarly(c, id, turn.id) || turn.terminal)
  }

  /** The handler once the buffered terminal is taken. */
  function AnsweredClear(c: Core, id: AttemptId, context: ContextId, claim: Claim, turn: TurnId, terminal: bool): Core
  {
    var (pool, outcome) := Bind(c.pool, claim, turn);
    var known := Attempt(c.store, id);
    if outcome.Conflict? && !(known.Some? && known.value.turn == Some(turn)) then PauseIdentityConflict(c.(pool := pool), id) else
    AnsweredBound(c.(pool := pool, provisional := if outcome.Done? then c.provisional - {id} else c.provisional),
                  id, context, turn, terminal)
  }

  /** The rest of that handler, once the claim is bound. */
  function AnsweredBound(c: Core, id: AttemptId, context: ContextId, turn: TurnId, terminal: bool): Core
  {
    var (store, confirmation) := ConfirmStart(c.store, id, context, turn, terminal);
    var f := c.(store := store, current := if confirmation == NewlyBound then Attempt(store, id) else c.current);
    if confirmation == Conflicting then PauseIdentityConflict(f, id)
    else if confirmation == AlreadyTerminalSame then
      var g := f.(current := None, nativeBusy := false, steeringPause := None);
      if terminal then Publish(g, turn) else g
    else if terminal then Conclude(f, turn)
    else f
  }

  /** The runtime closes a terminalizing attempt some time after its terminal was published. */
  function Finalized(c: Core, id: AttemptId, state: RowState, member: MemberState): Core
  {
    if id < |c.store| && c.store[id].state == RowActive && !c.store[id].accepting && c.store[id].member.Some?
       && state != RowActive && (member == MemberCompleted || member == MemberFailed || member == Superseded)
    then c.(store := c.store[id := c.store[id].(state := state, member := Some(c.store[id].member.value.(state := member)))])
    else c
  }

  // ---------------------------------------------------------------- one start, any interleaving

  datatype Event =
    | StartedNote(correlated: bool)
    | TerminalNote(correlated: bool)
    | PoolBound
    | Response(terminal: bool)
    | Finalize(state: RowState, member: MemberState)

  /** The start under study: attempt, claim and the turn the endpoint gave it. */
  datatype Start = Start(id: AttemptId, context: ContextId, claim: Claim, turn: TurnId)

  function SnapshotOf(start: Start, terminal: bool, correlated: bool): TurnSnapshot
  {
    TurnSnapshot(start.turn, terminal, if correlated then {start.id} else {})
  }

  function Handle(c: Core, start: Start, responded: bool, ev: Event): Core
  {
    match ev
    case StartedNote(correlated) => Started(c, SnapshotOf(start, false, correlated))
    case TerminalNote(correlated) =>
      Terminal(c, if responded then None else Some(start.id), SnapshotOf(start, true, correlated))
    // The pool binds the caller's claim when the answer arrives, before the posted handler does.
    case PoolBound => c.(pool := Bind(c.pool, start.claim, start.turn).0)
    case Response(terminal) => StartAnswered(c, start.id, start.context, start.claim, SnapshotOf(start, terminal, true))
    case Finalize(state, member) => Finalized(c, start.id, state, member)
  }

  /** What a start looks like between events. */
  datatype Shape = Waiting(buffered: bool) | Open | Closed | Leaked

  function NextShape(shape: Shape, ev: Event): Shape
  {
    match shape
    case Waiting(buffered) =>
      (match ev
       case StartedNote(correlated) => if !correlated then shape else if buffered then Closed else Open
       case TerminalNote(correlated) => if correlated then Closed else Waiting(true)
       case Response(terminal) => if buffered || terminal then Closed else Open
       case _ => shape)
    case Open =>
      (match ev
       case TerminalNote(_) => Closed
       case Response(terminal) => if terminal then Leaked else Open
       case _ => Open)
    case _ => shape
  }

  function TurnKeyOf(c: Core, start: Start): TurnKey
  {
    TurnKey(c.endpoint, c.thread, start.turn)
  }

  function Count(turns: seq<TurnId>, turn: TurnId): nat
  {
    if turns == [] then 0 else Count(turns[1..], turn) + if turns[0] == turn then 1 else 0
  }

  /** Nothing else is unresolved or bound to the turn, and no table is of size zero. */
  predicate Alone(c: Core, start: Start)
  {
    start.id < |c.store| && c.store[start.id].context == start.context
    && c.earlyCap > 0 && c.publishedCap > 0 && c.pool.cap > 0
    && Unique(c.pool.claims) && UniqueTerminals(c.pool.terminalClaims) && TurnKeyOf(c, start) !in c.pool.terminalBeforeStart
    && start.claim.endpoint == c.endpoint && start.claim.thread == c.thread
    && (forall i :: 0 <= i < |c.store| && i != start.id ==> c.store[i].turn != Some(start.turn) && !Unresolved(c.store[i]))
    && (forall s :: s in c.pool.claims && Holds(s, TurnKeyOf(c, start)) ==> s.claim == start.claim)
  }

  predicate BoundRow(row: Row, turn: TurnId)
  {
    row.turn == Some(turn) && row.member.Some? && row.member.value.observed == Some(turn)
  }

  predicate EndedRow(row: Row, turn: TurnId)
  {
    BoundRow(row, turn) && !row.accepting
    && if row.state == RowActive then row.member.value.state == Submitted
       else row.member.value.state in {MemberCompleted, MemberFailed, Superseded}
  }

  /** The start's claim is in the table, not bound yet or bound to its turn. */
  predicate ClaimIsLive(c: Core, start: Start)
  {
    ClaimState(start.claim, Provisional) in c.pool.claims || ClaimState(start.claim, Active(start.turn)) in c.pool.claims
  }

  predicate Matches(c: Core, start: Start, shape: Shape)
  {
    Alone(c, start)
    && var row := c.store[start.id];
    match shape
    case Waiting(buffered) =>
      c.current == Some(AttemptView(start.id, row.context, None, true))
      && row.state == RowActive && row.turn.None? && row.accepting && Unresolved(row)
      && start.id in c.provisional && c.provisional[start.id] == start.claim
      && ClaimIsLive(c, start)
      && Count(c.terminals, start.turn) == 0 && start.turn !in c.published
      && buffered == HasEarly(c, start.id, start.turn)
      && (c.earlyAttempt == Some(start.id) ==> |c.early| <= 1 && forall t :: t in c.early ==> t.id == start.turn)
    case Open =>
      c.current == Some(AttemptView(start.id, row.context, Some(start.turn), true))
      && row.state == RowActive && row.accepting && BoundRow(row, start.turn) && row.member.value.state == Submitted
      && ClaimState(start.claim, Active(start.turn)) in c.pool.claims
      && Count(c.terminals, start.turn) == 0 && start.turn !in c.published
      && !HasEarly(c, start.id, start.turn)
    case Closed =>
      c.current.None? && EndedRow(row, start.turn) && !Has(c.pool.claims, start.claim.id)
      && IsTerminal(c.pool, start.claim, start.turn)
      && Count(c.terminals, start.turn) == 1 && start.turn in c.published
    case Leaked =>
      c.current.None? && EndedRow(row, start.turn)
      && ClaimState(start.claim, Active(start.turn)) in c.pool.claims
      && Count(c.terminals, start.turn) == 1 && start.turn in c.published
  }

  lemma {:induction false} CountAppend(turns: seq<TurnId>, last: TurnId, turn: TurnId)
    ensures Count(turns + [last], turn) == Count(turns, turn) + if last == turn then 1 else 0
  {
    if turns == [] {
      assert [] + [last] == [last];
    } else {
      assert (turns + [last])[1..] == turns[1..] + [last];
      CountAppend(turns[1..], last, turn);
    }
  }

  lemma {:induction false} NoOtherAttemptForTurn(store: Store, turn: TurnId, id: AttemptId)
    requires forall i :: 0 <= i < |store| && i != id ==> store[i].turn != Some(turn)
    ensures AttemptForTurn(store, turn).Some? ==> AttemptForTurn(store, turn).value.id == id
  {
    if store != [] { NoOtherAttemptForTurn(store[..|store| - 1], turn, id); }
  }

  predicate UniqueTerminals(terminals: seq<TerminalClaim>)
  {
    forall i, j :: 0 <= i < j < |terminals| ==> terminals[i].claim.id != terminals[j].claim.id
  }

  lemma TerminalIsRecorded(terminals: seq<TerminalClaim>, cap: nat, claim: Claim, turn: TurnId)
    requires cap > 0 && UniqueTerminals(terminals)
    ensures var all := WithTerminal(terminals, cap, claim, turn);
      UniqueTerminals(all)
      && TerminalIndex(all, claim.id) < |all| && all[TerminalIndex(all, claim.id)] == TerminalClaim(claim, turn)
  {
    var i := TerminalIndex(terminals, claim.id);
    var others := if i < |terminals| then terminals[..i] + terminals[i + 1..] else terminals;
    assert forall j :: 0 <= j < |others| ==> others[j].claim.id != claim.id;
    assert UniqueTerminals(others + [TerminalClaim(claim, turn)]);
    var all := WithTerminal(terminals, cap, claim, turn);
    assert all[|all| - 1] == TerminalClaim(claim, turn);
  }

  /** Ending a turn that one claim holds removes that claim and remembers it. */
  lemma EndOfOnlyHolder(pool: Pool, claim: Claim, turn: TurnId)
    requires Unique(pool.claims) && ClaimState(claim, Active(turn)) in pool.claims && pool.cap > 0
    requires UniqueTerminals(pool.terminalClaims)
    requires forall s :: s in pool.claims && Holds(s, TurnKey(claim.endpoint, claim.thread, turn)) ==> s.claim == claim
    ensures var q := MarkTurnTerminal(pool, TurnKey(claim.endpoint, claim.thread, turn));
      Unique(q.claims) && !Has(q.claims, claim.id) && IsTerminal(q, claim, turn)
      && UniqueTerminals(q.terminalClaims)
      && q.terminalBeforeStart == pool.terminalBeforeStart && q.cap == pool.cap
      && forall s :: s in q.claims ==> s in pool.claims
  {
    var key := TurnKey(claim.endpoint, claim.thread, turn);
    var active := ClaimState(claim, Active(turn));
    MemberIsGet(pool.claims, active);
    var i := IndexOf(pool.claims, claim.id);
    forall j | 0 <= j < |pool.claims| && Holds(pool.claims[j], key)
      ensures j == i
    {
      IndexOfIsIndex(pool.claims, j);
    }
    OneHolderFacts(pool.claims, i, key);
    assert Others(pool.claims, key) == Without(pool.claims, claim.id);
    WithoutFacts(pool.claims, claim.id);
    TerminalIsRecorded(pool.terminalClaims, pool.cap, claim, turn);
    assert WithTerminals(pool.terminalClaims, pool.cap, [active], turn)
        == WithTerminal(pool.terminalClaims, pool.cap, claim, turn) by {
      assert [active][..0] == [];
    }
  }

  /** Binding the start's claim, for the first time or again, makes it the turn's holder. */
  lemma BindOfLive(pool: Pool, claim: Claim, turn: TurnId)
    requires Unique(pool.claims)
    requires ClaimState(claim, Provisional) in pool.claims || ClaimState(claim, Active(turn)) in pool.claims
    requires TurnKey(claim.endpoint, claim.thread, turn) !in pool.terminalBeforeStart
    ensures var (q, outcome) := Bind(pool, claim, turn);
      outcome.Done? && Unique(q.claims) && ClaimState(claim, Active(turn)) in q.claims
      && q == pool.(claims := q.claims)
      && forall s :: s in q.claims ==> s in pool.claims || s == ClaimState(claim, Active(turn))
  {
    var bound := ClaimState(claim, Active(turn));
    MemberIsGet(pool.claims, if bound in pool.claims then bound else ClaimState(claim, Provisional));
    var q := Bind(pool, claim, turn).0;
    assert q.claims[IndexOf(pool.claims, claim.id)] == bound;
  }

  lemma {:induction false} OnlyThisCorrelates(store: Store, turn: TurnSnapshot, id: AttemptId)
    requires forall i :: 0 <= i < |store| && i != id ==> !Unresolved(store[i])
    ensures CorrelatedAttempts(store, turn)
         == if id < |store| && Unresolved(store[id]) && id in turn.clients then [id] else []
  {
    if store != [] { OnlyThisCorrelates(store[..|store| - 1], turn, id); }
  }

  /** What `Conclude` does to a core in which the start's claim holds the turn. */
  lemma ConcludeCloses(c: Core, start: Start)
    requires Alone(c, start) && ClaimState(start.claim, Active(start.turn)) in c.pool.claims
    requires EndedRow(c.store[start.id], start.turn)
    requires Count(c.terminals, start.turn) == 0 && start.turn !in c.published
    ensures Matches(Conclude(c, start.turn), start, Closed)
  {
    EndOfOnlyHolder(c.pool, start.claim, start.turn);
    CountAppend(c.terminals, start.turn, start.turn);
    var d := Conclude(c, start.turn);
    assert start.turn in d.published by {
      var all := c.published + [start.turn];
      assert all[|all| - 1] == start.turn;
      assert d.published[|d.published| - 1] == start.turn;
    }
  }

  // ---------------------------------------------------------------- one event of a waiting start

  lemma WaitingConfirms(c: Core, start: Start, buffered: bool, terminal: bool)
    requires Matches(c, start, Waiting(buffered))
    ensures var (d, confirmation) := ConfirmNotified(c, start.id, start.turn, terminal);
      var row := c.store[start.id];
      confirmation == NewlyBound && Alone(d, start)
      && d == c.(pool := d.pool, provisional := d.provisional, store := d.store)
      && ClaimState(start.claim, Active(start.turn)) in d.pool.claims
      && d.store[start.id] == row.(turn := Some(start.turn), accepting := !terminal,
                                   member := Some(Member(Submitted, Some(start.turn))))
  {
    BindOfLive(c.pool, start.claim, start.turn);
  }

  lemma WaitingStarted(c: Core, start: Start, buffered: bool, correlated: bool)
    requires Matches(c, start, Waiting(buffered))
    ensures Matches(Started(c, SnapshotOf(start, false, correlated)), start, NextShape(Waiting(buffered), StartedNote(correlated)))
  {
    var turn := SnapshotOf(start, false, correlated);
    OnlyThisCorrelates(c.store, turn, start.id);
    var d := c.(nativeBusy := true);
    if correlated {
      var cleared := if buffered then ClearEarly(d, start.id) else d;
      assert Matches(cleared, start, Waiting(false));
      WaitingConfirms(cleared, start, false, buffered);
      var e := ConfirmNotified(cleared, start.id, start.turn, buffered).0;
      if buffered { ConcludeCloses(e, start); }
    }
  }

  /** A waiting start's terminal comes to `TerminalOfStart`. */
  lemma WaitingTerminalIsOfStart(c: Core, start: Start, buffered: bool, correlated: bool)
    requires Matches(c, start, Waiting(buffered))
    ensures var turn := SnapshotOf(start, true, correlated);
      c.current.Some? && Matches(c.(pumpPaused := false), start, Waiting(buffered))
      && Terminal(c, Some(start.id), turn) == TerminalOfStart(c.(pumpPaused := false), start.id, c.current.value, true, turn)
  {
    NotBoundToTurn(c.store, start.turn);
  }

  lemma CorrelatedTerminal(d: Core, start: Start, buffered: bool)
    requires Matches(d, start, Waiting(buffered))
    ensures Matches(TerminalOfStart(d, start.id, d.current.value, true, SnapshotOf(start, true, true)), start, Closed)
  {
    WaitingConfirms(d, start, buffered, true);
    ConcludeCloses(ConfirmNotified(d, start.id, start.turn, true).0, start);
  }

  lemma UncorrelatedTerminal(d: Core, start: Start, buffered: bool)
    requires Matches(d, start, Waiting(buffered))
    ensures Matches(TerminalOfStart(d, start.id, d.current.value, true, SnapshotOf(start, true, false)), start, Waiting(true))
  {
    var f := d.(store := ObserveUnknownStartTerminal(d.store, start.id, d.store[start.id].context));
    assert Matches(f, start, Waiting(buffered));
    BufferHoldsOne(f, start, SnapshotOf(start, true, false));
  }

  lemma WaitingTerminal(c: Core, start: Start, buffered: bool, correlated: bool)
    requires Matches(c, start, Waiting(buffered))
    ensures Matches(Terminal(c, Some(start.id), SnapshotOf(start, true, correlated)), start,
                    NextShape(Waiting(buffered), TerminalNote(correlated)))
  {
    WaitingTerminalIsOfStart(c, start, buffered, correlated);
    if correlated { CorrelatedTerminal(c.(pumpPaused := false), start, buffered); }
    else { UncorrelatedTerminal(c.(pumpPaused := false), start, buffered); }
  }

  lemma {:induction false} NotBoundToTurn(store: Store, turn: TurnId)
    requires forall i :: 0 <= i < |store| ==> store[i].turn != Some(turn)
    ensures AttemptForTurn(store, turn).None?
  {
    if store != [] { NotBoundToTurn(store[..|store| - 1], turn); }
  }

  lemma BufferHoldsOne(c: Core, start: Start, turn: TurnSnapshot)
    requires turn.id == start.turn && c.earlyCap > 0
    requires c.earlyAttempt == Some(start.id) ==> |c.early| <= 1 && forall t :: t in c.early ==> t.id == start.turn
    ensures var d := BufferEarly(c, start.id, turn);
      d.early == [turn] && d.earlyAttempt == Some(start.id) && d == c.(early := d.early, earlyAttempt := d.earlyAttempt)
  {
  }

  /** The core once the response's claim is bound. */
  function BoundCore(c: Core, start: Start): Core
  {
    var d := ClearEarly(c, start.id);
    d.(pool := Bind(d.pool, start.claim, start.turn).0, provisional := d.provisional - {start.id})
  }

  lemma WaitingIsBound(c: Core, start: Start, buffered: bool, terminal: bool)
    requires Matches(c, start, Waiting(buffered))
    ensures StartAnswered(c, start.id, start.context, start.claim, SnapshotOf(start, terminal, true))
      == AnsweredBound(BoundCore(c, start), start.id, start.context, start.turn, buffered || terminal)
    ensures var e := BoundCore(c, start);
      Alone(e, start) && ClaimState(start.claim, Active(start.turn)) in e.pool.claims && e.earlyAttempt != Some(start.id)
      && e == c.(early := e.early, earlyAttempt := e.earlyAttempt, pool := e.pool, provisional := e.provisional)
  {
    BindOfLive(ClearEarly(c, start.id).pool, start.claim, start.turn);
  }

  lemma WaitingConfirmsAnswer(e: Core, start: Start, ended: bool)
    requires Alone(e, start) && ClaimState(start.claim, Active(start.turn)) in e.pool.claims && e.earlyAttempt != Some(start.id)
    requires var row := e.store[start.id]; row.state == RowActive && row.turn.None? && row.accepting && Unresolved(row)
    requires Count(e.terminals, start.turn) == 0 && start.turn !in e.published
    ensures Matches(AnsweredBound(e, start.id, start.context, start.turn, ended), start, if ended then Closed else Open)
  {
    var (store, confirmation) := ConfirmStart(e.store, start.id, start.context, start.turn, ended);
    assert confirmation == NewlyBound;
    var f := e.(store := store, current := Attempt(store, start.id));
    assert Alone(f, start);
    if ended { ConcludeCloses(f, start); }
  }

  lemma WaitingAnswered(c: Core, start: Start, buffered: bool, terminal: bool)
    requires Matches(c, start, Waiting(buffered))
    ensures Matches(StartAnswered(c, start.id, start.context, start.claim, SnapshotOf(start, terminal, true)), start,
                    NextShape(Waiting(buffered), Response(terminal)))
  {
    WaitingIsBound(c, start, buffered, terminal);
    WaitingConfirmsAnswer(BoundCore(c, start), start, buffered || terminal);
  }

  // ---------------------------------------------------------------- one event of a bound start

  lemma {:induction false} BoundToTurn(store: Store, turn: TurnId, id: AttemptId)
    requires id < |store| && store[id].turn == Some(turn) && store[id].state == RowActive
    requires forall i :: 0 <= i < |store| && i != id ==> store[i].turn != Some(turn)
    ensures AttemptForTurn(store, turn) == Some(ViewOf(store, id))
  {
    if id < |store| - 1 { BoundToTurn(store[..|store| - 1], turn, id); }
  }

  lemma OpenTerminal(c: Core, start: Start, inFlight: Option<AttemptId>, correlated: bool)
    requires Matches(c, start, Open)
    ensures Matches(Terminal(c, inFlight, SnapshotOf(start, true, correlated)), start, Closed)
  {
    var d := c.(pumpPaused := false, store := BeginTerminalizing(c.store, start.id, start.turn));
    assert Alone(d, start);
    ConcludeCloses(d, start);
  }

  lemma BoundStarted(c: Core, start: Start, shape: Shape, correlated: bool)
    requires Matches(c, start, shape) && !shape.Waiting?
    ensures Matches(Started(c, SnapshotOf(start, false, correlated)), start, shape)
  {
    OnlyThisCorrelates(c.store, SnapshotOf(start, false, correlated), start.id);
  }

  lemma EndedTerminal(c: Core, start: Start, shape: Shape, inFlight: Option<AttemptId>, correlated: bool)
    requires Matches(c, start, shape) && (shape == Closed || shape == Leaked)
    ensures Matches(Terminal(c, inFlight, SnapshotOf(start, true, correlated)), start, shape)
  {
  }

  lemma PublishedOnce(c: Core, turn: TurnId)
    requires c.publishedCap > 0 && turn !in c.published
    ensures Publish(c, turn) == c.(published := Publish(c, turn).published, terminals := c.terminals + [turn])
    ensures turn in Publish(c, turn).published && Count(Publish(c, turn).terminals, turn) == Count(c.terminals, turn) + 1
  {
    CountAppend(c.terminals, turn, turn);
    var all := c.published + [turn];
    assert all[|all| - 1] == turn;
    var kept := Evicted(all, c.publishedCap);
    assert kept[|kept| - 1] == turn;
  }

  /** The claim is bound already, so binding it again changes nothing. */
  lemma OpenIsBound(c: Core, start: Start, terminal: bool)
    requires Matches(c, start, Open)
    ensures var d := ClearEarly(c, start.id);
      StartAnswered(c, start.id, start.context, start.claim, SnapshotOf(start, terminal, true))
      == AnsweredBound(d.(provisional := d.provisional - {start.id}), start.id, start.context, start.turn, terminal)
  {
    MemberIsGet(c.pool.claims, ClaimState(start.claim, Active(start.turn)));
  }

  lemma OpenAnsweredBound(c: Core, start: Start, terminal: bool)
    requires Matches(c, start, Open)
    ensures Matches(AnsweredBound(c, start.id, start.context, start.turn, terminal), start, NextShape(Open, Response(terminal)))
  {
    PublishedOnce(c.(store := ConfirmStart(c.store, start.id, start.context, start.turn, terminal).0,
                     current := None, nativeBusy := false, steeringPause := None), start.turn);
  }

  lemma OpenAnswered(c: Core, start: Start, terminal: bool)
    requires Matches(c, start, Open)
    ensures Matches(StartAnswered(c, start.id, start.context, start.claim, SnapshotOf(start, terminal, true)), start,
                    NextShape(Open, Response(terminal)))
  {
    OpenIsBound(c, start, terminal);
    var d := ClearEarly(c, start.id);
    OpenAnsweredBound(d.(provisional := d.provisional - {start.id}), start, terminal);
  }

  /** A claim that ended with its turn, or leaked bound to it, still answers a second binding. */
  lemma EndedIsBound(c: Core, start: Start, shape: Shape, terminal: bool)
    requires Matches(c, start, shape) && (shape == Closed || shape == Leaked)
    ensures var d := ClearEarly(c, start.id);
      StartAnswered(c, start.id, start.context, start.claim, SnapshotOf(start, terminal, true))
      == AnsweredBound(d.(provisional := d.provisional - {start.id}), start.id, start.context, start.turn,
                       HasEarly(c, start.id, start.turn) || terminal)
  {
    if shape == Leaked { MemberIsGet(c.pool.claims, ClaimState(start.claim, Active(start.turn))); }
  }

  lemma EndedAnsweredBound(c: Core, start: Start, shape: Shape, terminal: bool)
    requires Matches(c, start, shape) && (shape == Closed || shape == Leaked)
    ensures Matches(AnsweredBound(c, start.id, start.context, start.turn, terminal), start, shape)
  {
  }

  lemma EndedAnswered(c: Core, start: Start, shape: Shape, terminal: bool)
    requires Matches(c, start, shape) && (shape == Closed || shape == Leaked)
    ensures Matches(StartAnswered(c, start.id, start.context, start.claim, SnapshotOf(start, terminal, true)), start, shape)
  {
    EndedIsBound(c, start, shape, terminal);
    var d := ClearEarly(c, start.id);
    EndedAnsweredBound(d.(provisional := d.provisional - {start.id}), start, shape,
                       HasEarly(c, start.id, start.turn) || terminal);
  }

  /** Every event moves a start from shape to shape as `NextShape` says. */
  lemma EventMovesShape(c: Core, start: Start, shape: Shape, responded: bool, ev: Event)
    requires Matches(c, start, shape) && (responded ==> !shape.Waiting?)
    ensures Matches(Handle(c, start, responded, ev), start, NextShape(shape, ev))
  {
    match ev
    case StartedNote(correlated) =>
      if shape.Waiting? { WaitingStarted(c, start, shape.buffered, correlated); } else { BoundStarted(c, start, shape, correlated); }
    case TerminalNote(correlated) =>
      if shape.Waiting? { WaitingTerminal(c, start, shape.buffered, correlated); }
      else if shape == Open { OpenTerminal(c, start, if responded then None else Some(start.id), correlated); }
      else { EndedTerminal(c, start, shape, if responded then None else Some(start.id), correlated); }
    case Response(terminal) =>
      if shape.Waiting? { WaitingAnswered(c, start, shape.buffered, terminal); }
      else if shape == Open { OpenAnswered(c, start, terminal); }
      else { EndedAnswered(c, start, shape, terminal); }
    case PoolBound => PoolBoundKeepsShape(c, start, shape);
    case Finalize(state, member) =>
  }

  lemma PoolBoundKeepsShape(c: Core, start: Start, shape: Shape)
    requires Matches(c, start, shape)
    ensures Matches(c.(pool := Bind(c.pool, start.claim, start.turn).0), start, shape)
  {
    if shape != Closed { BindOfLive(c.pool, start.claim, start.turn); }
  }

  // ---------------------------------------------------------------- every order of events

  predicate Answered(events: seq<Event>)
  {
    exists i :: 0 <= i < |events| && events[i].Response?
  }

  function After(c: Core, start: Start, events: seq<Event>): Core
  {
    if events == [] then c
    else
      var before := events[..|events| - 1];
      Handle(After(c, start, before), start, Answered(before), events[|events| - 1])
  }

  function ShapeAfter(events: seq<Event>): Shape
  {
    if events == [] then Waiting(false)
    else NextShape(ShapeAfter(events[..|events| - 1]), events[|events| - 1])
  }

  lemma {:induction false} ShapeFollows(c: Core, start: Start, events: seq<Event>)
    requires Matches(c, start, Waiting(false))
    ensures Matches(After(c, start, events), start, ShapeAfter(events))
    ensures Answered(events) ==> !ShapeAfter(events).Waiting?
  {
    if events != [] {
      var before := events[..|events| - 1];
      ShapeFollows(c, start, before);
      EventMovesShape(After(c, start, before), start, ShapeAfter(before), Answered(before), events[|events| - 1]);
      if Answered(events) && !events[|events| - 1].Response? {
        var i :| 0 <= i < |events| && events[i].Response?;
        assert before[i].Response?;
      }
    }
  }

  /** The started notification bound the attempt, the response then says the turn is over, and no
      terminal notification came before that response. */
  predicate LeaksAt(events: seq<Event>, i: nat, j: nat)
  {
    i < j < |events| && events[i] == StartedNote(true) && events[j] == Response(true)
    && forall k :: 0 <= k < j ==> !events[k].TerminalNote?
  }

  ghost predicate Leaks(events: seq<Event>)
  {
    exists i: nat, j: nat :: LeaksAt(events, i, j)
  }

  ghost predicate AtMostOneResponse(events: seq<Event>)
  {
    forall i, j :: 0 <= i < j < |events| ==> !(events[i].Response? && events[j].Response?)
  }

  ghost predicate HasTerminal(events: seq<Event>)
  {
    exists i :: 0 <= i < |events| && events[i].TerminalNote?
  }

  predicate HasBound(events: seq<Event>)
  {
    exists i :: 0 <= i < |events| && (events[i] == StartedNote(true) || events[i].Response?)
  }

  lemma LeaksGrows(events: seq<Event>, last: Event)
    ensures Leaks(events) ==> Leaks(events + [last])
    ensures !Leaks(events) && Leaks(events + [last]) ==>
      last == Response(true) && !HasTerminal(events) && exists i :: 0 <= i < |events| && events[i] == StartedNote(true)
  {
    var all := events + [last];
    if Leaks(events) {
      var i: nat, j: nat :| LeaksAt(events, i, j);
      assert LeaksAt(all, i, j);
    } else if Leaks(all) {
      var i: nat, j: nat :| LeaksAt(all, i, j);
      if j < |events| {
        assert forall k :: 0 <= k < j ==> events[k] == all[k];
        assert LeaksAt(events, i, j);
      } else {
        assert events[i] == StartedNote(true);
        assert forall k :: 0 <= k < |events| ==> events[k] == all[k];
      }
    }
  }

  /** What each shape says about the events so far. */
  ghost predicate Explains(shape: Shape, events: seq<Event>)
  {
    match shape
    case Waiting(buffered) => !HasBound(events) && (buffered <==> HasTerminal(events)) && !Leaks(events)
    case Open => HasBound(events) && !HasTerminal(events) && !Leaks(events)
    case Closed => (HasTerminal(events) || Answered(events)) && !Leaks(events)
    case Leaked => Leaks(events)
  }

  lemma ShapeAfterOne(events: seq<Event>, last: Event)
    requires Explains(ShapeAfter(events), events) && AtMostOneResponse(events + [last])
    ensures Explains(NextShape(ShapeAfter(events), last), events + [last])
  {
    var all := events + [last];
    LeaksGrows(events, last);
    assert forall k :: 0 <= k < |events| ==> all[k] == events[k];
    assert all[|events|] == last;
    assert HasTerminal(all) <==> HasTerminal(events) || last.TerminalNote? by {
      if HasTerminal(events) {
        var k :| 0 <= k < |events| && events[k].TerminalNote?;
        assert all[k].TerminalNote?;
      }
    }
    assert HasBound(events) ==> HasBound(all) by {
      if HasBound(events) {
        var k :| 0 <= k < |events| && (events[k] == StartedNote(true) || events[k].Response?);
        assert all[k] == events[k];
      }
    }
    if last.Response? {
      forall k | 0 <= k < |events|
        ensures !events[k].Response?
      {
        assert all[k] == events[k] && all[|events|].Response?;
      }
    }
    if ShapeAfter(events) == Open && last == Response(true) {
      var k :| 0 <= k < |events| && (events[k] == StartedNote(true) || events[k].Response?);
      assert LeaksAt(all, k, |events|);
    }
    if Answered(events) {
      var k :| 0 <= k < |events| && events[k].Response?;
      assert all[k].Response?;
    }
  }

  lemma {:induction false} ShapeIsExplained(events: seq<Event>)
    requires AtMostOneResponse(events)
    ensures Explains(ShapeAfter(events), events)
  {
    if events != [] {
      var before := events[..|events| - 1];
      ShapeIsExplained(before);
      assert before + [events[|events| - 1]] == events;
      ShapeAfterOne(before, events[|events| - 1]);
    }
  }

  /** No current attempt, no claim of the start or on its turn, `onTerminal` called exactly once. */
  ghost predicate Settled(c: Core, start: Start)
  {
    c.current.None? && Count(c.terminals, start.turn) == 1
    && forall s :: s in c.pool.claims ==> s.claim.id != start.claim.id && !Holds(s, TurnKeyOf(c, start))
  }

  /** Whatever the order of one response, the pool's own binding, any started notifications, at least one terminal
      notification and the runtime's closing of the row, the start ends settled, except exactly in
      the order `Leaks` describes: then the attempt and the published terminal are right, but the
      claim stays bound to a turn that is over. */
  lemma StartSettlesIff(c: Core, start: Start, events: seq<Event>)
    requires Matches(c, start, Waiting(false))
    requires AtMostOneResponse(events) && Answered(events) && HasTerminal(events)
    ensures Settled(After(c, start, events), start) <==> !Leaks(events)
    ensures var d := After(c, start, events);
      d.current.None? && Count(d.terminals, start.turn) == 1
      && (Leaks(events) ==> ClaimState(start.claim, Active(start.turn)) in d.pool.claims)
  {
    ShapeFollows(c, start, events);
    ShapeIsExplained(events);
    var d := After(c, start, events);
    HasIsMembership(d.pool.claims, start.claim.id);
  }

  // ---------------------------------------------------------------- where a start comes from

  /** `pump` choosing a start: claim, attempt row, reservation, launch. */
  function Launch(c: Core, context: ContextId): (Core, Start)
    requires !Has(c.pool.claims, Caller(context))
  {
    var (pool, claim) := CreateClaim(c.pool, c.endpoint, c.thread, Caller(context));
    var id := |c.store|;
    var row := Row(context, None, true, RowActive, Some(Member(StartSubmitting, None)));
    (c.(current := Some(AttemptView(id, context, None, true)), nativeBusy := true, provisional := c.provisional[id := claim.value],
        store := c.store + [row], pool := pool),
     Start(id, context, claim.value, 0))
  }

  /** A core in which no start is unresolved and nothing knows of `turn` yet. */
  ghost predicate Ready(c: Core, turn: TurnId)
  {
    c.earlyCap > 0 && c.publishedCap > 0 && c.pool.cap > 0
    && Unique(c.pool.claims) && UniqueTerminals(c.pool.terminalClaims)
    && TurnKey(c.endpoint, c.thread, turn) !in c.pool.terminalBeforeStart
    && (forall row :: row in c.store ==> row.turn != Some(turn) && !Unresolved(row))
    && (forall s :: s in c.pool.claims ==> !Holds(s, TurnKey(c.endpoint, c.thread, turn)))
    && Count(c.terminals, turn) == 0 && turn !in c.published
    && (c.earlyAttempt.Some? ==> c.earlyAttempt.value < |c.store|)
  }

  lemma LaunchedStartWaits(c: Core, context: ContextId, turn: TurnId)
    requires Ready(c, turn) && !Has(c.pool.claims, Caller(context))
    ensures var (d, start) := Launch(c, context);
      Matches(d, start.(turn := turn), Waiting(false))
  {
    var (d, launched) := Launch(c, context);
    var added := ClaimState(launched.claim, Provisional);
    assert d.pool.claims == c.pool.claims + [added];
    HasIsMembership(c.pool.claims, Caller(context));
    assert forall i :: 0 <= i < |d.store| && i != launched.id ==> d.store[i] in c.store;
  }

  /** Started notification, terminal response, terminal notification: the claim outlives its turn. */
  lemma LeakingOrder(c: Core, context: ContextId, turn: TurnId)
    requires Ready(c, turn) && !Has(c.pool.claims, Caller(context))
    ensures var (d, launched) := Launch(c, context);
      var start := launched.(turn := turn);
      var e := After(d, start, [StartedNote(true), Response(true), TerminalNote(true)]);
      !Settled(e, start) && ClaimState(start.claim, Active(turn)) in e.pool.claims
  {
    var events := [StartedNote(true), Response(true), TerminalNote(true)];
    LaunchedStartWaits(c, context, turn);
    var (d, launched) := Launch(c, context);
    assert LeaksAt(events, 0, 1);
    assert events[1].Response? && events[2].TerminalNote?;
    StartSettlesIff(d, launched.(turn := turn), events);
  }
}

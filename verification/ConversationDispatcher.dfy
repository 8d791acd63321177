/** `ConversationDispatcher`'s lifecycle handlers changed in place, each proved against `Dispatcher`. */
module ConversationDispatcher {
  import opened Common
  import opened TurnCapacity
  import opened Dispatcher
  import AppServerPool

  class ConversationDispatcher {
    var currentAttempt: Option<AttemptView>
    var inFlightStartAttempt: Option<AttemptId>
    var nativeBusy: bool
    var pumpPaused: bool
    var steeringPause: Option<AttemptId>
    var provisionalClaims: map<AttemptId, Claim>
    var earlyTerminals: seq<TurnSnapshot>
    var earlyTerminalAttempt: Option<AttemptId>
    var publishedTerminals: seq<TurnId>
    var onTerminal: seq<TurnId>
    var store: Store
    const pool: AppServerPool.Pool
    const endpoint: EndpointId
    const thread: ThreadId
    const earlyCap: nat
    const publishedCap: nat

    constructor (pool: AppServerPool.Pool, endpoint: EndpointId, thread: ThreadId, store: Store, earlyCap: nat, publishedCap: nat)
      ensures View() == Core(None, false, false, None, map[], [], None, [], [], store, pool.View(), endpoint, thread, earlyCap, publishedCap)
      ensures inFlightStartAttempt == None && this.pool == pool
    {
      currentAttempt, inFlightStartAttempt, nativeBusy, pumpPaused, steeringPause := None, None, false, false, None;
      provisionalClaims, earlyTerminals, earlyTerminalAttempt := map[], [], None;
      publishedTerminals, onTerminal, this.store := [], [], store;
      this.pool, this.endpoint, this.thread, this.earlyCap, this.publishedCap := pool, endpoint, thread, earlyCap, publishedCap;
    }

    function View(): Core
      reads this, pool
    {
      Core(currentAttempt, nativeBusy, pumpPaused, steeringPause, provisionalClaims, earlyTerminals, earlyTerminalAttempt,
           publishedTerminals, onTerminal, store, pool.View(), endpoint, thread, earlyCap, publishedCap)
    }

    /** Claim ids are the keys of a map. */
    ghost predicate Valid()
      reads this, pool
    {
      Unique(pool.claims)
    }

    method PublishTerminal(turn: TurnId)
      modifies this`publishedTerminals, this`onTerminal
      ensures View() == Publish(old(View()), turn)
    {
      if turn in publishedTerminals { return; }
      publishedTerminals := publishedTerminals + [turn];
      if |publishedTerminals| > publishedCap { publishedTerminals := publishedTerminals[1..]; }
      onTerminal := onTerminal + [turn];
    }

    method ClearEarlyTerminals(id: AttemptId)
      modifies this`earlyTerminals, this`earlyTerminalAttempt
      ensures View() == ClearEarly(old(View()), id)
    {
      if earlyTerminalAttempt != Some(id) { return; }
      earlyTerminals, earlyTerminalAttempt := [], None;
    }

    method TakeEarlyTerminal(id: AttemptId, turn: TurnId) returns (early: bool)
      modifies this`earlyTerminals, this`earlyTerminalAttempt
      ensures early == HasEarly(old(View()), id, turn)
      ensures View() == if early then ClearEarly(old(View()), id) else old(View())
    {
      early := HasEarly(View(), id, turn);
      if early { ClearEarlyTerminals(id); }
    }

    method BufferEarlyTerminal(id: AttemptId, turn: TurnSnapshot)
      modifies this`earlyTerminals, this`earlyTerminalAttempt
      ensures View() == BufferEarly(old(View()), id, turn)
    {
      if earlyTerminalAttempt != Some(id) {
        earlyTerminals, earlyTerminalAttempt := [], Some(id);
      }
      var i := EarlyIndex(earlyTerminals, turn.id);
      earlyTerminals := if i < |earlyTerminals| then earlyTerminals[i := turn] else earlyTerminals + [turn];
      if |earlyTerminals| > earlyCap { earlyTerminals := earlyTerminals[1..]; }
    }

    method CorrelatedUnresolvedStart(turn: TurnSnapshot) returns (id: Option<AttemptId>)
      modifies this`currentAttempt
      ensures (View(), id) == Correlate(old(View()), turn)
    {
      if currentAttempt.Some? && currentAttempt.value.turn.None? && currentAttempt.value.id < |store|
         && Unresolved(store[currentAttempt.value.id]) && currentAttempt.value.id in turn.clients {
        return Some(currentAttempt.value.id);
      }
      var matches: seq<AttemptId> := [];
      for i := 0 to |store|
        invariant View() == old(View())
        invariant matches == CorrelatedAttempts(store[..i], turn)
      {
        assert store[..i + 1][..i] == store[..i];
        if Unresolved(store[i]) && i in turn.clients { matches := matches + [i]; }
      }
      assert store[..|store|] == store;
      if |matches| != 1 { return None; }
      currentAttempt := Attempt(store, matches[0]);
      return if currentAttempt.Some? then Some(matches[0]) else None;
    }

    method ConfirmNotifiedStart(id: AttemptId, turn: TurnId, terminal: bool) returns (r: Confirmation)
      requires Valid()
      modifies this`provisionalClaims, this`store, pool`claims, pool`nextClaimGeneration, pool`terminalBeforeStart, pool`terminalClaims
      ensures Valid() && (View(), r) == ConfirmNotified(old(View()), id, turn, terminal)
    {
      if currentAttempt.None? || currentAttempt.value.id != id { return Conflicting; }
      var context := currentAttempt.value.context;
      var claim;
      if id in provisionalClaims {
        claim := provisionalClaims[id];
      } else {
        var created := pool.ClaimTurnCapacity(endpoint, thread, Caller(context));
        if created.Conflict? { return Conflicting; }
        claim := created.value;
      }
      BindKeepsUnique(pool.View(), claim, turn);
      var bound := pool.BindTurnCapacityClaim(claim, turn);
      if bound.Conflict? { return Conflicting; }
      provisionalClaims := provisionalClaims - {id};
      var (after, confirmation) := ConfirmStart(store, id, context, turn, terminal);
      store := after;
      return confirmation;
    }

    method PauseConflict(id: AttemptId)
      modifies this`pumpPaused, this`steeringPause
      ensures View() == PauseIdentityConflict(old(View()), id)
    {
      pumpPaused := true;
      if currentAttempt.Some? && currentAttempt.value.id == id { steeringPause := Some(id); }
    }

    method ConcludeTurn(turn: TurnId)
      requires Valid()
      modifies this`currentAttempt, this`nativeBusy, this`steeringPause, this`publishedTerminals, this`onTerminal
      modifies pool`claims, pool`terminalBeforeStart, pool`terminalClaims
      ensures Valid() && View() == Conclude(old(View()), turn)
    {
      var key := TurnKey(endpoint, thread, turn);
      OthersFacts(pool.claims, key);
      currentAttempt, nativeBusy, steeringPause := None, false, None;
      pool.EndTurn(key);
      PublishTerminal(turn);
    }

    method ConfirmStarted(id: AttemptId, turn: TurnId, early: bool)
      requires Valid()
      modifies this, pool
      ensures Valid() && View() == StartedConfirmed(old(View()), id, turn, early)
      ensures inFlightStartAttempt == old(inFlightStartAttempt)
    {
      var confirmation := ConfirmNotifiedStart(id, turn, early);
      if confirmation == Conflicting { PauseConflict(id); return; }
      if early {
        ConcludeTurn(turn);
      } else if confirmation == NewlyBound {
        currentAttempt := Attempt(store, id);
      }
    }

    method OnStarted(turn: TurnSnapshot)
      requires Valid()
      modifies this, pool
      ensures Valid() && View() == Started(old(View()), turn) && inFlightStartAttempt == old(inFlightStartAttempt)
    {
      nativeBusy := true;
      var correlated := CorrelatedUnresolvedStart(turn);
      if correlated.None? { return; }
      var id := correlated.value;
      var early := TakeEarlyTerminal(id, turn.id);
      ConfirmStarted(id, turn.id, early);
    }

    method SettleStartTerminal(id: AttemptId, starting: AttemptView, awaited: bool, turn: TurnSnapshot)
      requires Valid()
      modifies this, pool
      ensures Valid() && View() == TerminalOfStart(old(View()), id, starting, awaited, turn)
      ensures inFlightStartAttempt == old(inFlightStartAttempt)
    {
      if id in turn.clients {
        var confirmation := ConfirmNotifiedStart(id, turn.id, true);
        if confirmation == Conflicting { PauseConflict(id); } else { ConcludeTurn(turn.id); }
        return;
      }
      var context := if id < |store| then store[id].context else starting.context;
      store := ObserveUnknownStartTerminal(store, id, context);
      if awaited { BufferEarlyTerminal(starting.id, turn); }
    }

    method OnTerminal(turn: TurnSnapshot)
      requires Valid()
      modifies this, pool
      ensures Valid() && View() == Terminal(old(View()), old(inFlightStartAttempt), turn)
      ensures inFlightStartAttempt == old(inFlightStartAttempt)
    {
      pumpPaused := false;
      var attempt := if currentAttempt.Some? && currentAttempt.value.turn == Some(turn.id) then currentAttempt
                     else AttemptForTurn(store, turn.id);
      if attempt.Some? && attempt.value.turn == Some(turn.id) && currentAttempt.Some? && currentAttempt.value.id == attempt.value.id {
        store := BeginTerminalizing(store, attempt.value.id, turn.id);
        ConcludeTurn(turn.id);
        return;
      }
      if currentAttempt.None? || currentAttempt.value.turn.Some? { nativeBusy := false; return; }
      var starting := currentAttempt.value;
      var awaited := inFlightStartAttempt == Some(starting.id);
      var submission: Option<AttemptId>;
      if awaited {
        submission := if starting.id < |store| && Unresolved(store[starting.id]) then Some(starting.id) else None;
      } else {
        submission := CorrelatedUnresolvedStart(turn);
      }
      if submission.None? { return; }
      SettleStartTerminal(submission.value, starting, awaited, turn);
    }

    method OnStartResponse(id: AttemptId, context: ContextId, claim: Claim, turn: TurnSnapshot)
      requires Valid()
      modifies this, pool
      ensures Valid() && View() == StartAnswered(old(View()), id, context, claim, turn)
      ensures inFlightStartAttempt == if old(inFlightStartAttempt) == Some(id) then None else old(inFlightStartAttempt)
    {
      if inFlightStartAttempt == Some(id) { inFlightStartAttempt := None; }
      var early := TakeEarlyTerminal(id, turn.id);
      ClearEarlyTerminals(id);
      BindResponse(id, context, claim, turn.id, early || turn.terminal);
    }

    method BindResponse(id: AttemptId, context: ContextId, claim: Claim, turn: TurnId, terminal: bool)
      requires Valid()
      modifies this, pool
      ensures Valid() && View() == AnsweredClear(old(View()), id, context, claim, turn, terminal)
      ensures inFlightStartAttempt == old(inFlightStartAttempt)
    {
      BindKeepsUnique(pool.View(), claim, turn);
      var bound := pool.BindTurnCapacityClaim(claim, turn);
      if bound.Done? {
        provisionalClaims := provisionalClaims - {id};
      } else {
        var known := Attempt(store, id);
        if !(known.Some? && known.value.turn == Some(turn)) { PauseConflict(id); return; }
      }
      ConfirmResponse(id, context, turn, terminal);
    }

    method ConfirmResponse(id: AttemptId, context: ContextId, turn: TurnId, terminal: bool)
      requires Valid()
      modifies this, pool
      ensures Valid() && View() == AnsweredBound(old(View()), id, context, turn, terminal)
      ensures inFlightStartAttempt == old(inFlightStartAttempt)
    {
      var (after, confirmation) := ConfirmStart(store, id, context, turn, terminal);
      store := after;
      if confirmation == Conflicting { PauseConflict(id); return; }
      if confirmation == NewlyBound { currentAttempt := Attempt(store, id); }
      if confirmation == AlreadyTerminalSame {
        currentAttempt, nativeBusy, steeringPause := None, false, None;
        if terminal { PublishTerminal(turn); }
      } else if terminal {
        ConcludeTurn(turn);
      }
    }
  }

  lemma BindKeepsUnique(pool: TurnCapacity.Pool, claim: Claim, turn: TurnId)
    requires Unique(pool.claims)
    ensures Unique(Bind(pool, claim, turn).0.claims)
  {
    WithoutFacts(pool.claims, claim.id);
  }
}

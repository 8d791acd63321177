/** `AppServerPool`'s claim table changed in place, each method proved against `TurnCapacity`. */
module AppServerPool {
  import opened TurnCapacity

  function RemoveEach(claims: seq<ClaimState>, states: seq<ClaimState>): seq<ClaimState>
  {
    if states == [] then claims else RemoveEach(Without(claims, states[0].claim.id), states[1..])
  }

  lemma {:induction false} RemoveEachBehindHead(head: ClaimState, rest: seq<ClaimState>, states: seq<ClaimState>)
    requires forall s :: s in states ==> s.claim.id != head.claim.id
    ensures RemoveEach([head] + rest, states) == [head] + RemoveEach(rest, states)
    decreases |states|
  {
    if states != [] {
      var id := states[0].claim.id;
      assert ([head] + rest)[1..] == rest;
      assert Without([head] + rest, id) == [head] + Without(rest, id) by {
        var i := IndexOf(rest, id);
        assert IndexOf([head] + rest, id) == 1 + i;
        if i < |rest| {
          assert ([head] + rest)[..1 + i] == [head] + rest[..i] && ([head] + rest)[1 + i + 1..] == rest[i + 1..];
        }
      }
      RemoveEachBehindHead(head, Without(rest, id), states[1..]);
    }
  }

  lemma {:induction false} RemovingHoldersLeavesOthers(claims: seq<ClaimState>, key: TurnKey)
    requires Unique(claims)
    ensures RemoveEach(claims, Holders(claims, key)) == Others(claims, key)
  {
    if claims != [] {
      assert claims == [claims[0]] + claims[1..];
      HoldersFacts(claims[1..], key);
      RemovingHoldersLeavesOthers(claims[1..], key);
      if Holds(claims[0], key) {
        assert Without(claims, claims[0].claim.id) == claims[1..];
      } else {
        RemoveEachBehindHead(claims[0], claims[1..], Holders(claims[1..], key));
      }
    }
  }

  lemma LoopStep(claims: seq<ClaimState>, terminals: seq<TerminalClaim>, cap: nat, states: seq<ClaimState>, i: nat, turn: TurnId)
    requires i < |states|
    ensures WithTerminals(terminals, cap, states[..i + 1], turn)
      == WithTerminal(WithTerminals(terminals, cap, states[..i], turn), cap, states[i].claim, turn)
    ensures RemoveEach(claims, states[i..]) == RemoveEach(Without(claims, states[i].claim.id), states[i + 1..])
  {
    assert states[..i + 1][..i] == states[..i];
    assert states[i..][1..] == states[i + 1..];
  }

  class Pool {
    var claims: seq<ClaimState>
    var terminalBeforeStart: seq<TurnKey>
    var terminalClaims: seq<TerminalClaim>
    var nextClaimGeneration: nat
    var endpoints: map<EndpointId, nat>
    var endpointGenerations: map<EndpointId, nat>
    const cap: nat

    function View(): TurnCapacity.Pool
      reads this
    {
      TurnCapacity.Pool(claims, terminalBeforeStart, terminalClaims, nextClaimGeneration, cap)
    }

    constructor (cap: nat)
      ensures View() == TurnCapacity.Pool([], [], [], 1, cap) && endpoints == map[] && endpointGenerations == map[]
    {
      this.cap := cap;
      claims, terminalBeforeStart, terminalClaims, nextClaimGeneration := [], [], [], 1;
      endpoints, endpointGenerations := map[], map[];
    }

    method ClaimTurnCapacity(endpoint: EndpointId, thread: ThreadId, id: ClaimId) returns (r: Outcome<Claim>)
      modifies this`claims, this`nextClaimGeneration
      ensures (View(), r) == CreateClaim(old(View()), endpoint, thread, id)
    {
      if Has(claims, id) {
        var existing := Get(claims, id).claim;
        return if existing.endpoint != endpoint || existing.thread != thread then Conflict else Done(existing);
      }
      var claim := Claim(id, endpoint, thread, nextClaimGeneration);
      nextClaimGeneration := nextClaimGeneration + 1;
      claims := claims + [ClaimState(claim, Provisional)];
      return Done(claim);
    }

    method RecordTerminalClaim(claim: Claim, turn: TurnId)
      modifies this`terminalClaims
      ensures View() == RecordTerminal(old(View()), claim, turn)
    {
      var i := TerminalIndex(terminalClaims, claim.id);
      if i < |terminalClaims| { terminalClaims := terminalClaims[..i] + terminalClaims[i + 1..]; }
      terminalClaims := terminalClaims + [TerminalClaim(claim, turn)];
      if |terminalClaims| > cap { terminalClaims := terminalClaims[1..]; }
    }

    method BindTurnCapacityClaim(claim: Claim, turn: TurnId) returns (r: Outcome<()>)
      modifies this`claims, this`terminalBeforeStart, this`terminalClaims
      ensures (View(), r) == Bind(old(View()), claim, turn)
    {
      if !Has(claims, claim.id) || Get(claims, claim.id).claim != claim {
        return if IsTerminal(View(), claim, turn) then Done(()) else Conflict;
      }
      var state := Get(claims, claim.id);
      if state.phase.Active? {
        return if state.phase.turn == turn then Done(()) else Conflict;
      }
      var key := TurnKey(claim.endpoint, claim.thread, turn);
      if key in terminalBeforeStart {
        terminalBeforeStart := WithoutKey(terminalBeforeStart, key);
        RecordTerminalClaim(claim, turn);
        claims := Without(claims, claim.id);
      } else {
        claims := claims[IndexOf(claims, claim.id) := ClaimState(claim, Active(turn))];
      }
      return Done(());
    }

    method ReleaseTurnCapacityClaim(claim: Claim) returns (r: Outcome<()>)
      modifies this`claims
      ensures (View(), r) == Release(old(View()), claim)
    {
      if !Has(claims, claim.id) { return Done(()); }
      if Get(claims, claim.id).claim != claim { return Conflict; }
      claims := Without(claims, claim.id);
      return Done(());
    }

    method EndHolders(states: seq<ClaimState>, key: TurnKey)
      modifies this`claims, this`terminalClaims
      ensures View() == old(View()).(claims := RemoveEach(old(claims), states),
                                     terminalClaims := WithTerminals(old(terminalClaims), cap, states, key.turn))
    {
      for i := 0 to |states|
        invariant View() == old(View()).(claims := claims, terminalClaims := terminalClaims)
        invariant terminalClaims == WithTerminals(old(terminalClaims), cap, states[..i], key.turn)
        invariant RemoveEach(claims, states[i..]) == RemoveEach(old(claims), states)
      {
        LoopStep(claims, old(terminalClaims), cap, states, i, key.turn);
        RecordTerminalClaim(states[i].claim, key.turn);
        claims := Without(claims, states[i].claim.id);
      }
      assert states[..|states|] == states;
    }

    method EndTurn(key: TurnKey)
      requires Unique(claims)
      modifies this`claims, this`terminalBeforeStart, this`terminalClaims
      ensures View() == MarkTurnTerminal(old(View()), key)
    {
      var states := Holders(claims, key);
      if states != [] {
        RemovingHoldersLeavesOthers(claims, key);
        EndHolders(states, key);
        return;
      }
      if key !in terminalBeforeStart {
        terminalBeforeStart := terminalBeforeStart + [key];
        if |terminalBeforeStart| > cap { terminalBeforeStart := terminalBeforeStart[1..]; }
      }
    }

    method DropEndpoint(endpoint: EndpointId)
      modifies this`claims, this`terminalBeforeStart
      ensures View() == MarkEndpointUnavailable(old(View()), endpoint)
    {
      var kept: seq<ClaimState> := [];
      for i := 0 to |claims|
        invariant claims == old(claims) && View() == old(View())
        invariant kept + NotOn(claims[i..], endpoint) == NotOn(old(claims), endpoint)
      {
        assert claims[i..] == [claims[i]] + claims[i + 1..];
        if claims[i].claim.endpoint != endpoint { kept := kept + [claims[i]]; }
      }
      claims := kept;
      var keys: seq<TurnKey> := [];
      for i := 0 to |terminalBeforeStart|
        invariant View() == old(View()).(claims := kept)
        invariant keys + KeysNotOn(terminalBeforeStart[i..], endpoint) == KeysNotOn(old(terminalBeforeStart), endpoint)
      {
        assert terminalBeforeStart[i..] == [terminalBeforeStart[i]] + terminalBeforeStart[i + 1..];
        if terminalBeforeStart[i].endpoint != endpoint { keys := keys + [terminalBeforeStart[i]]; }
      }
      terminalBeforeStart := keys;
    }

    /** `startTurnAdmitted` after its request settles, when it created the claim itself. */
    method SettleImplicitStart(claim: Claim, reply: Reply) returns (started: bool)
      modifies this`claims, this`terminalBeforeStart, this`terminalClaims
      ensures View() == FinishImplicitStart(old(View()), claim, reply)
      ensures started <==> reply.Answered? && Bind(old(View()), claim, reply.turn).1.Done?
    {
      if reply.Failed? {
        var _ := ReleaseTurnCapacityClaim(claim);
        return false;
      }
      var bound := BindTurnCapacityClaim(claim, reply.turn);
      if bound.Done? {
        var _ := ReleaseTurnCapacityClaim(claim);
        return true;
      }
      if Has(claims, claim.id) && Get(claims, claim.id).phase == Provisional {
        var _ := ReleaseTurnCapacityClaim(claim);
      }
      return false;
    }

    method PublishEndpoint(endpoint: EndpointId, instance: nat) returns (generation: nat)
      modifies this`endpoints, this`endpointGenerations
      ensures View() == old(View())
      ensures generation == (if endpoint in old(endpointGenerations) then old(endpointGenerations)[endpoint] else 0) + 1
      ensures endpoints == old(endpoints)[endpoint := instance]
      ensures endpointGenerations == old(endpointGenerations)[endpoint := generation]
    {
      generation := (if endpoint in endpointGenerations then endpointGenerations[endpoint] else 0) + 1;
      endpoints := endpoints[endpoint := instance];
      endpointGenerations := endpointGenerations[endpoint := generation];
    }

    /** The loss listener installed by one publication: a replaced endpoint can release nothing. */
    method ObserveLoss(endpoint: EndpointId, instance: nat, generation: nat)
      modifies this`claims, this`terminalBeforeStart
      ensures View() ==
        if endpoint in endpoints && endpoint in endpointGenerations
           && endpoints[endpoint] == instance && endpointGenerations[endpoint] == generation
        then MarkEndpointUnavailable(old(View()), endpoint) else old(View())
    {
      if endpoint !in endpointGenerations || endpointGenerations[endpoint] != generation
         || endpoint !in endpoints || endpoints[endpoint] != instance { return; }
      DropEndpoint(endpoint);
    }
  }
}

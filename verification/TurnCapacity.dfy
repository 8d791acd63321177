/**
 The turn-capacity claim table of `AppServerPool`. JavaScript maps and sets iterate in insertion
 order and the pool evicts the oldest entry, so each table is a sequence without duplicates.
 `cap` is the eviction bound (1 000 in the source).
 */
module TurnCapacity {
  import opened Runs

  type EndpointId = nat
  type ThreadId = nat
  type TurnId = nat

  /** Ids a caller chooses, and the random ids that only one `startTurn` call ever knows. */
  datatype ClaimId = Caller(name: nat) | Implicit(serial: nat)

  datatype Claim = Claim(id: ClaimId, endpoint: EndpointId, thread: ThreadId, generation: nat)
  datatype Phase = Provisional | Active(turn: TurnId)
  datatype ClaimState = ClaimState(claim: Claim, phase: Phase)
  datatype TerminalClaim = TerminalClaim(claim: Claim, turn: TurnId)
  datatype TurnKey = TurnKey(endpoint: EndpointId, thread: ThreadId, turn: TurnId)

  datatype Pool = Pool(
    claims: seq<ClaimState>,
    terminalBeforeStart: seq<TurnKey>,
    terminalClaims: seq<TerminalClaim>,
    nextGeneration: nat,
    cap: nat)

  // ---------------------------------------------------------------- table lookups

  function IndexOf(claims: seq<ClaimState>, id: ClaimId): (i: nat)
    ensures i <= |claims|
    ensures i < |claims| ==> claims[i].claim.id == id
    ensures forall j :: 0 <= j < i ==> claims[j].claim.id != id
  {
    if claims == [] || claims[0].claim.id == id then 0 else 1 + IndexOf(claims[1..], id)
  }

  predicate Has(claims: seq<ClaimState>, id: ClaimId)
  {
    IndexOf(claims, id) < |claims|
  }

  function Get(claims: seq<ClaimState>, id: ClaimId): ClaimState
    requires Has(claims, id)
  {
    claims[IndexOf(claims, id)]
  }

  function Without(claims: seq<ClaimState>, id: ClaimId): seq<ClaimState>
  {
    var i := IndexOf(claims, id);
    if i < |claims| then claims[..i] + claims[i + 1..] else claims
  }

  function TerminalIndex(claims: seq<TerminalClaim>, id: ClaimId): (i: nat)
    ensures i <= |claims|
    ensures i < |claims| ==> claims[i].claim.id == id
    ensures forall j :: 0 <= j < i ==> claims[j].claim.id != id
  {
    if claims == [] || claims[0].claim.id == id then 0 else 1 + TerminalIndex(claims[1..], id)
  }

  function WithoutKey(keys: seq<TurnKey>, key: TurnKey): seq<TurnKey>
  {
    if keys == [] then []
    else if keys[0] == key then keys[1..]
    else [keys[0]] + WithoutKey(keys[1..], key)
  }

  function Evicted<T>(entries: seq<T>, cap: nat): seq<T>
  {
    if |entries| > cap then entries[1..] else entries
  }

  // ---------------------------------------------------------------- the operations

  /** The terminal record with one claim moved to its end, the oldest evicted over `cap`. */
  function WithTerminal(terminals: seq<TerminalClaim>, cap: nat, claim: Claim, turn: TurnId): seq<TerminalClaim>
  {
    var i := TerminalIndex(terminals, claim.id);
    var others := if i < |terminals| then terminals[..i] + terminals[i + 1..] else terminals;
    Evicted(others + [TerminalClaim(claim, turn)], cap)
  }

  function WithTerminals(terminals: seq<TerminalClaim>, cap: nat, states: seq<ClaimState>, turn: TurnId): seq<TerminalClaim>
  {
    if states == [] then terminals
    else
      var last := |states| - 1;
      WithTerminal(WithTerminals(terminals, cap, states[..last], turn), cap, states[last].claim, turn)
  }

  function RecordTerminal(p: Pool, claim: Claim, turn: TurnId): Pool
  {
    p.(terminalClaims := WithTerminal(p.terminalClaims, p.cap, claim, turn))
  }

  datatype Outcome<T> = Done(value: T) | Conflict

  function CreateClaim(p: Pool, endpoint: EndpointId, thread: ThreadId, id: ClaimId): (Pool, Outcome<Claim>)
  {
    if Has(p.claims, id) then
      var existing := Get(p.claims, id).claim;
      (p, if existing.endpoint != endpoint || existing.thread != thread then Conflict else Done(existing))
    else
      var claim := Claim(id, endpoint, thread, p.nextGeneration);
      (p.(claims := p.claims + [ClaimState(claim, Provisional)], nextGeneration := p.nextGeneration + 1), Done(claim))
  }

  predicate IsTerminal(p: Pool, claim: Claim, turn: TurnId)
  {
    var i := TerminalIndex(p.terminalClaims, claim.id);
    i < |p.terminalClaims| && p.terminalClaims[i] == TerminalClaim(claim, turn)
  }

  function Bind(p: Pool, claim: Claim, turn: TurnId): (Pool, Outcome<()>)
  {
    if !Has(p.claims, claim.id) || Get(p.claims, claim.id).claim != claim then
      (p, if IsTerminal(p, claim, turn) then Done(()) else Conflict)
    else
      var state := Get(p.claims, claim.id);
      if state.phase.Active? then (p, if state.phase.turn == turn then Done(()) else Conflict)
      else
        var key := TurnKey(claim.endpoint, claim.thread, turn);
        if key in p.terminalBeforeStart then
          var q := p.(terminalBeforeStart := WithoutKey(p.terminalBeforeStart, key));
          (RecordTerminal(q, claim, turn).(claims := Without(p.claims, claim.id)), Done(()))
        else
          (p.(claims := p.claims[IndexOf(p.claims, claim.id) := ClaimState(claim, Active(turn))]), Done(()))
  }

  function Release(p: Pool, claim: Claim): (Pool, Outcome<()>)
  {
    if !Has(p.claims, claim.id) then (p, Done(()))
    else if Get(p.claims, claim.id).claim != claim then (p, Conflict)
    else (p.(claims := Without(p.claims, claim.id)), Done(()))
  }

  predicate Holds(state: ClaimState, key: TurnKey)
  {
    state.claim.endpoint == key.endpoint && state.claim.thread == key.thread && state.phase == Active(key.turn)
  }

  function Holders(claims: seq<ClaimState>, key: TurnKey): seq<ClaimState>
  {
    if claims == [] then []
    else if Holds(claims[0], key) then [claims[0]] + Holders(claims[1..], key)
    else Holders(claims[1..], key)
  }

  function Others(claims: seq<ClaimState>, key: TurnKey): seq<ClaimState>
  {
    if claims == [] then []
    else if Holds(claims[0], key) then Others(claims[1..], key)
    else [claims[0]] + Others(claims[1..], key)
  }

  function MarkTurnTerminal(p: Pool, key: TurnKey): Pool
  {
    var holders := Holders(p.claims, key);
    if holders != [] then
      p.(claims := Others(p.claims, key), terminalClaims := WithTerminals(p.terminalClaims, p.cap, holders, key.turn))
    else if key in p.terminalBeforeStart then p
    else p.(terminalBeforeStart := Evicted(p.terminalBeforeStart + [key], p.cap))
  }

  function NotOn(claims: seq<ClaimState>, endpoint: EndpointId): seq<ClaimState>
  {
    if claims == [] then []
    else if claims[0].claim.endpoint == endpoint then NotOn(claims[1..], endpoint)
    else [claims[0]] + NotOn(claims[1..], endpoint)
  }

  function KeysNotOn(keys: seq<TurnKey>, endpoint: EndpointId): seq<TurnKey>
  {
    if keys == [] then []
    else if keys[0].endpoint == endpoint then KeysNotOn(keys[1..], endpoint)
    else [keys[0]] + KeysNotOn(keys[1..], endpoint)
  }

  function MarkEndpointUnavailable(p: Pool, endpoint: EndpointId): Pool
  {
    p.(claims := NotOn(p.claims, endpoint), terminalBeforeStart := KeysNotOn(p.terminalBeforeStart, endpoint))
  }

  /** How a `turn/start` request without a caller's claim comes back. */
  datatype Reply = Answered(turn: TurnId) | Failed

  /** The part of `startTurnAdmitted` after its await, for an implicit claim. Both catch blocks run. */
  function FinishImplicitStart(p: Pool, claim: Claim, reply: Reply): Pool
  {
    if reply.Failed? then Release(p, claim).0
    else
      var (q, bound) := Bind(p, claim, reply.turn);
      if bound.Done? then Release(q, claim).0
      else if Has(q.claims, claim.id) && Get(q.claims, claim.id).phase == Provisional then Release(q, claim).0
      else q
  }

  // ---------------------------------------------------------------- table facts

  predicate Unique(claims: seq<ClaimState>)
  {
    forall i, j :: 0 <= i < j < |claims| ==> claims[i].claim.id != claims[j].claim.id
  }

  lemma HasIsMembership(claims: seq<ClaimState>, id: ClaimId)
    ensures Has(claims, id) ==> Get(claims, id) in claims && Get(claims, id).claim.id == id
    ensures !Has(claims, id) ==> forall s :: s in claims ==> s.claim.id != id
  {
  }

  lemma MemberIsGet(claims: seq<ClaimState>, s: ClaimState)
    requires Unique(claims) && s in claims
    ensures Has(claims, s.claim.id) && Get(claims, s.claim.id) == s
  {
  }

  lemma IndexOfIsIndex(claims: seq<ClaimState>, i: nat)
    requires Unique(claims) && i < |claims|
    ensures IndexOf(claims, claims[i].claim.id) == i
  {
  }

  lemma WithoutFacts(claims: seq<ClaimState>, id: ClaimId)
    requires Unique(claims)
    ensures Unique(Without(claims, id)) && !Has(Without(claims, id), id)
    ensures forall s :: s in Without(claims, id) <==> s in claims && s.claim.id != id
    ensures |Without(claims, id)| <= |claims|
  {
    var i := IndexOf(claims, id);
    var rest := Without(claims, id);
    forall s ensures s in rest <==> s in claims && s.claim.id != id
    {
      if s in claims && s.claim.id != id {
        var j :| 0 <= j < |claims| && claims[j] == s;
        if i < |claims| { assert s == rest[if j < i then j else j - 1]; }
      }
    }
  }

  lemma ConsIsUnique(head: ClaimState, rest: seq<ClaimState>)
    requires Unique(rest) && forall s :: s in rest ==> s.claim.id != head.claim.id
    ensures Unique([head] + rest)
  {
  }

  lemma {:induction false} OthersFacts(claims: seq<ClaimState>, key: TurnKey)
    requires Unique(claims)
    ensures Unique(Others(claims, key))
    ensures forall s :: s in Others(claims, key) <==> s in claims && !Holds(s, key)
  {
    if claims != [] {
      assert Unique(claims[1..]);
      OthersFacts(claims[1..], key);
      assert claims == [claims[0]] + claims[1..];
      assert forall s :: s in claims[1..] ==> s.claim.id != claims[0].claim.id;
      ConsIsUnique(claims[0], Others(claims[1..], key));
    }
  }

  lemma {:induction false} NotOnFacts(claims: seq<ClaimState>, endpoint: EndpointId)
    requires Unique(claims)
    ensures Unique(NotOn(claims, endpoint))
    ensures forall s :: s in NotOn(claims, endpoint) <==> s in claims && s.claim.endpoint != endpoint
  {
    if claims != [] {
      assert Unique(claims[1..]);
      NotOnFacts(claims[1..], endpoint);
      assert claims == [claims[0]] + claims[1..];
      assert forall s :: s in claims[1..] ==> s.claim.id != claims[0].claim.id;
      ConsIsUnique(claims[0], NotOn(claims[1..], endpoint));
    }
  }

  // ---------------------------------------------------------------- every interleaving

  /** The pool and the implicit starts whose request has not come back. */
  datatype Table = Table(pool: Pool, starts: map<nat, Claim>, nextSerial: nat)

  datatype Event =
    | Claimed(endpoint: EndpointId, thread: ThreadId, name: nat)
    | Bound(claim: Claim, turn: TurnId)
    | Released(claim: Claim)
    | TurnEnded(key: TurnKey)
    | EndpointLost(endpoint: EndpointId)
    | ImplicitStarted(endpoint: EndpointId, thread: ThreadId)
    | ImplicitReplied(serial: nat, reply: Reply)

  ghost predicate Init(t: Table)
  {
    t.pool.claims == [] && t.pool.terminalBeforeStart == [] && t.pool.terminalClaims == []
    && t.pool.nextGeneration == 1 && t.starts == map[] && t.nextSerial == 0
  }

  /** Only `startTurn` itself ever holds a claim with an implicit id. */
  predicate Enabled(t: Table, ev: Event)
  {
    match ev
    case Bound(claim, _) => claim.id.Caller?
    case Released(claim) => claim.id.Caller?
    case ImplicitReplied(serial, _) => serial in t.starts
    case _ => true
  }

  function Next(t: Table, ev: Event): Table
    requires Enabled(t, ev)
  {
    match ev
    case Claimed(endpoint, thread, name) => t.(pool := CreateClaim(t.pool, endpoint, thread, Caller(name)).0)
    case Bound(claim, turn) => t.(pool := Bind(t.pool, claim, turn).0)
    case Released(claim) => t.(pool := Release(t.pool, claim).0)
    case TurnEnded(key) => t.(pool := MarkTurnTerminal(t.pool, key))
    case EndpointLost(endpoint) => t.(pool := MarkEndpointUnavailable(t.pool, endpoint))
    case ImplicitStarted(endpoint, thread) =>
      var (q, claim) := CreateClaim(t.pool, endpoint, thread, Implicit(t.nextSerial));
      if claim.Done? then Table(q, t.starts[t.nextSerial := claim.value], t.nextSerial + 1) else t
    case ImplicitReplied(serial, reply) =>
      Table(FinishImplicitStart(t.pool, t.starts[serial], reply), t.starts - {serial}, t.nextSerial)
  }

  ghost predicate Step(t: Table, ev: Event, u: Table)
  {
    Enabled(t, ev) && u == Next(t, ev)
  }

  predicate GenerationsAreIssued(p: Pool)
  {
    (forall s :: s in p.claims ==> s.claim.generation < p.nextGeneration)
    && forall s, r :: s in p.claims && r in p.claims && s.claim.generation == r.claim.generation ==> s == r
  }

  predicate ImplicitsAreInFlight(t: Table)
  {
    (forall s :: s in t.pool.claims && s.claim.id.Implicit? ==>
      s.phase == Provisional && s.claim.id.serial in t.starts && t.starts[s.claim.id.serial] == s.claim)
    && (forall n :: n in t.starts ==> n < t.nextSerial && t.starts[n].id == Implicit(n))
  }

  predicate Inv(t: Table)
  {
    Unique(t.pool.claims) && GenerationsAreIssued(t.pool) && ImplicitsAreInFlight(t)
    && Recorded(t.pool)
  }

  /** The early-terminal record is a set within its bound. */
  predicate Recorded(p: Pool)
  {
    DistinctKeys(p.terminalBeforeStart) && |p.terminalBeforeStart| <= p.cap
  }

  predicate DistinctKeys(keys: seq<TurnKey>)
  {
    forall i, j :: 0 <= i < j < |keys| ==> keys[i] != keys[j]
  }

  lemma ConsIsDistinct(head: TurnKey, rest: seq<TurnKey>)
    requires DistinctKeys(rest) && head !in rest
    ensures DistinctKeys([head] + rest)
  {
  }

  lemma {:induction false} WithoutKeyFacts(keys: seq<TurnKey>, key: TurnKey)
    requires DistinctKeys(keys)
    ensures DistinctKeys(WithoutKey(keys, key)) && key !in WithoutKey(keys, key)
    ensures forall k :: k in WithoutKey(keys, key) ==> k in keys
    ensures |WithoutKey(keys, key)| == |keys| - if key in keys then 1 else 0
  {
    if keys != [] && keys[0] != key {
      WithoutKeyFacts(keys[1..], key);
      ConsIsDistinct(keys[0], WithoutKey(keys[1..], key));
    }
  }

  lemma {:induction false} KeysNotOnFacts(keys: seq<TurnKey>, endpoint: EndpointId)
    requires DistinctKeys(keys)
    ensures DistinctKeys(KeysNotOn(keys, endpoint)) && |KeysNotOn(keys, endpoint)| <= |keys|
    ensures forall k :: k in KeysNotOn(keys, endpoint) <==> k in keys && k.endpoint != endpoint
  {
    if keys != [] {
      KeysNotOnFacts(keys[1..], endpoint);
      assert keys[0] !in keys[1..];
      ConsIsDistinct(keys[0], KeysNotOn(keys[1..], endpoint));
    }
  }

  /** Each operation only adds one new provisional claim, binds one provisional claim, or drops claims. */
  lemma BindFacts(p: Pool, claim: Claim, turn: TurnId)
    requires Unique(p.claims) && Recorded(p)
    ensures var q := Bind(p, claim, turn).0;
      Unique(q.claims) && q.nextGeneration == p.nextGeneration && q.cap == p.cap
      && Recorded(q)
      && (forall s :: s in q.claims && s.claim.id != claim.id ==> s in p.claims)
      && (forall s :: s in q.claims && s.claim.id == claim.id ==>
          s in p.claims || (s == ClaimState(claim, Active(turn)) && ClaimState(claim, Provisional) in p.claims))
  {
    WithoutFacts(p.claims, claim.id);
    WithoutKeyFacts(p.terminalBeforeStart, TurnKey(claim.endpoint, claim.thread, turn));
  }

  lemma MarkTerminalFacts(p: Pool, key: TurnKey)
    requires Unique(p.claims) && Recorded(p)
    ensures var q := MarkTurnTerminal(p, key);
      Unique(q.claims) && q.nextGeneration == p.nextGeneration && q.cap == p.cap && Recorded(q)
      && forall s :: s in q.claims ==> s in p.claims
  {
    OthersFacts(p.claims, key);
  }

  lemma ReleaseFacts(p: Pool, claim: Claim)
    requires Unique(p.claims) && Recorded(p) && (Has(p.claims, claim.id) ==> Get(p.claims, claim.id).claim == claim)
    ensures var q := Release(p, claim).0;
      Unique(q.claims) && !Has(q.claims, claim.id) && q == p.(claims := q.claims)
      && forall s :: s in q.claims ==> s in p.claims && s.claim.id != claim.id
  {
    WithoutFacts(p.claims, claim.id);
    HasIsMembership(p.claims, claim.id);
  }

  lemma FinishFacts(p: Pool, claim: Claim, reply: Reply)
    requires Unique(p.claims) && Recorded(p)
    requires Has(p.claims, claim.id) ==> Get(p.claims, claim.id) == ClaimState(claim, Provisional)
    ensures var q := FinishImplicitStart(p, claim, reply);
      Unique(q.claims) && !Has(q.claims, claim.id) && q.nextGeneration == p.nextGeneration && q.cap == p.cap
      && Recorded(q)
      && forall s :: s in q.claims ==> s in p.claims && s.claim.id != claim.id
  {
    ReleaseFacts(p, claim);
    if reply.Answered? {
      BindFacts(p, claim, reply.turn);
      var q := Bind(p, claim, reply.turn).0;
      HasIsMembership(q.claims, claim.id);
      ReleaseFacts(q, claim);
    }
  }

  /** Claims that only shrink keep every invariant of the table. */
  lemma ShrinkingKeepsInv(t: Table, q: Pool)
    requires Inv(t) && Unique(q.claims) && q.nextGeneration == t.pool.nextGeneration
    requires Recorded(q) && forall s :: s in q.claims ==> s in t.pool.claims
    ensures Inv(t.(pool := q))
  {
  }

  lemma CreateKeepsInv(t: Table, endpoint: EndpointId, thread: ThreadId, name: nat)
    requires Inv(t)
    ensures Inv(Next(t, Claimed(endpoint, thread, name)))
  {
    if !Has(t.pool.claims, Caller(name)) {
      var added := ClaimState(Claim(Caller(name), endpoint, thread, t.pool.nextGeneration), Provisional);
      AppendFacts(t.pool, added);
    }
  }

  lemma AppendFacts(p: Pool, added: ClaimState)
    requires Unique(p.claims) && GenerationsAreIssued(p)
    requires !Has(p.claims, added.claim.id) && added.claim.generation == p.nextGeneration
    ensures Unique(p.claims + [added])
    ensures forall s :: s in p.claims + [added] <==> s in p.claims || s == added
    ensures GenerationsAreIssued(p.(claims := p.claims + [added], nextGeneration := p.nextGeneration + 1))
  {
  }

  lemma ImplicitStartKeepsInv(t: Table, endpoint: EndpointId, thread: ThreadId)
    requires Inv(t)
    ensures Inv(Next(t, ImplicitStarted(endpoint, thread)))
  {
    var id := Implicit(t.nextSerial);
    HasIsMembership(t.pool.claims, id);
    var added := ClaimState(Claim(id, endpoint, thread, t.pool.nextGeneration), Provisional);
    AppendFacts(t.pool, added);
    assert Next(t, ImplicitStarted(endpoint, thread)).pool.claims == t.pool.claims + [added];
  }

  lemma BindKeepsInv(t: Table, claim: Claim, turn: TurnId)
    requires Inv(t) && claim.id.Caller?
    ensures Inv(Next(t, Bound(claim, turn)))
  {
    BindFacts(t.pool, claim, turn);
  }

  lemma ReplyKeepsInv(t: Table, serial: nat, reply: Reply)
    requires Inv(t) && serial in t.starts
    ensures Inv(Next(t, ImplicitReplied(serial, reply)))
    ensures !Has(Next(t, ImplicitReplied(serial, reply)).pool.claims, Implicit(serial))
  {
    var claim := t.starts[serial];
    HasIsMembership(t.pool.claims, claim.id);
    FinishFacts(t.pool, claim, reply);
    ShrinkingKeepsInv(t, FinishImplicitStart(t.pool, claim, reply));
  }

  lemma NextKeepsInv(t: Table, ev: Event)
    requires Inv(t) && Enabled(t, ev)
    ensures Inv(Next(t, ev))
  {
    var p := t.pool;
    match ev
    case Claimed(endpoint, thread, name) => CreateKeepsInv(t, endpoint, thread, name);
    case Bound(claim, turn) => BindKeepsInv(t, claim, turn);
    case Released(claim) =>
      WithoutFacts(p.claims, claim.id);
      ShrinkingKeepsInv(t, Release(p, claim).0);
    case TurnEnded(key) =>
      MarkTerminalFacts(p, key);
      ShrinkingKeepsInv(t, MarkTurnTerminal(p, key));
    case EndpointLost(endpoint) =>
      NotOnFacts(p.claims, endpoint);
      KeysNotOnFacts(p.terminalBeforeStart, endpoint);
      ShrinkingKeepsInv(t, MarkEndpointUnavailable(p, endpoint));
    case ImplicitStarted(endpoint, thread) => ImplicitStartKeepsInv(t, endpoint, thread);
    case ImplicitReplied(serial, reply) => ReplyKeepsInv(t, serial, reply);
  }

  lemma StepKeepsInv()
    ensures forall t: Table :: Init(t) ==> Inv(t)
    ensures forall t: Table, ev: Event, u: Table :: Inv(t) && Step(t, ev, u) ==> Inv(u)
  {
    forall t: Table, ev: Event, u: Table | Inv(t) && Step(t, ev, u)
      ensures Inv(u)
    {
      NextKeepsInv(t, ev);
    }
  }

  lemma TraceKeepsInv(states: seq<Table>, events: seq<Event>, i: nat)
    requires IsRun(Init, Step, states, events) && i < |states|
    ensures Inv(states[i])
  {
    StepKeepsInv();
    HoldsThroughout(Init, Step, Inv, states, events, i);
  }


  /** A lost endpoint takes exactly its own claims and recorded turns with it. */
  lemma EndpointLossDropsItsClaims(p: Pool, endpoint: EndpointId)
    requires Unique(p.claims) && Recorded(p)
    ensures var q := MarkEndpointUnavailable(p, endpoint);
      (forall s :: s in q.claims <==> s in p.claims && s.claim.endpoint != endpoint)
      && (forall key :: key in q.terminalBeforeStart <==> key in p.terminalBeforeStart && key.endpoint != endpoint)
      && q == p.(claims := q.claims, terminalBeforeStart := q.terminalBeforeStart)
  {
    NotOnFacts(p.claims, endpoint);
    KeysNotOnFacts(p.terminalBeforeStart, endpoint);
  }

  /** Claiming again under one id gives the same claim back, generation included, and refuses another
      thread or endpoint; neither changes the pool. */
  lemma ClaimingAgain(p: Pool, endpoint: EndpointId, thread: ThreadId, id: ClaimId, endpoint': EndpointId, thread': ThreadId)
    requires CreateClaim(p, endpoint, thread, id).1.Done?
    ensures var (q, made) := CreateClaim(p, endpoint, thread, id);
      CreateClaim(q, endpoint', thread', id)
      == (q, if endpoint' == endpoint && thread' == thread then made else Conflict)
  {
    if !Has(p.claims, id) {
      var added := ClaimState(Claim(id, endpoint, thread, p.nextGeneration), Provisional);
      FirstOfAppended(p.claims, added);
    }
  }

  lemma {:induction false} FirstOfAppended(claims: seq<ClaimState>, added: ClaimState)
    requires !Has(claims, added.claim.id)
    ensures Has(claims + [added], added.claim.id) && Get(claims + [added], added.claim.id) == added
  {
    assert (claims + [added])[|claims|] == added;
  }

  // ---------------------------------------------------------------- when an operation is a conflict

  /** The record of ended turns says of this very claim, with its generation, that it ended with this turn. */
  predicate EndedWith(p: Pool, claim: Claim, turn: TurnId)
  {
    exists i :: 0 <= i < |p.terminalClaims| && p.terminalClaims[i] == TerminalClaim(claim, turn)
      && forall j :: 0 <= j < i ==> p.terminalClaims[j].claim.id != claim.id
  }

  /** Binding is a conflict exactly for a claim that is bound to another turn, or that is not in the table
      and is not on record as having ended with this turn. A conflict changes nothing. */
  lemma BindConflictIff(p: Pool, claim: Claim, turn: TurnId)
    requires Unique(p.claims)
    ensures var (q, outcome) := Bind(p, claim, turn);
      (outcome.Conflict? <==>
         if exists s <- p.claims :: s.claim == claim then exists s <- p.claims :: s.claim == claim && s.phase.Active? && s.phase.turn != turn
         else !EndedWith(p, claim, turn))
      && (outcome.Conflict? || !(exists s <- p.claims :: s == ClaimState(claim, Provisional)) ==> q == p)
  {
    HasIsMembership(p.claims, claim.id);
    forall s | s in p.claims && s.claim.id == claim.id
      ensures Has(p.claims, claim.id) && Get(p.claims, claim.id) == s
    {
      MemberIsGet(p.claims, s);
    }
    if Has(p.claims, claim.id) { assert p.claims[IndexOf(p.claims, claim.id)] in p.claims; }
    var i := TerminalIndex(p.terminalClaims, claim.id);
    if EndedWith(p, claim, turn) {
      var k :| 0 <= k < |p.terminalClaims| && p.terminalClaims[k] == TerminalClaim(claim, turn)
        && forall j :: 0 <= j < k ==> p.terminalClaims[j].claim.id != claim.id;
      assert k == i;
    }
  }

  /** Binding a provisional claim makes it active with the turn, in its place; if the end of that turn came
      first, the claim leaves the table instead and the early end is used up. No other claim moves. */
  lemma BindOfProvisional(p: Pool, claim: Claim, turn: TurnId, i: nat)
    requires Unique(p.claims) && Recorded(p) && i < |p.claims| && p.claims[i] == ClaimState(claim, Provisional)
    ensures var (q, outcome) := Bind(p, claim, turn);
      var key := TurnKey(claim.endpoint, claim.thread, turn);
      outcome.Done?
      && if key in p.terminalBeforeStart then
           q.claims == p.claims[..i] + p.claims[i + 1..] && (p.cap > 0 ==> TerminalClaim(claim, turn) in q.terminalClaims)
           && forall k :: k in q.terminalBeforeStart <==> k in p.terminalBeforeStart && k != key
         else q == p.(claims := p.claims[i := ClaimState(claim, Active(turn))])
  {
    var key := TurnKey(claim.endpoint, claim.thread, turn);
    MemberIsGet(p.claims, p.claims[i]);
    assert p.claims[i].claim.id == p.claims[IndexOf(p.claims, claim.id)].claim.id;
    assert i == IndexOf(p.claims, claim.id);
    if key in p.terminalBeforeStart {
      OnlyKeyLeaves(p.terminalBeforeStart, key);
      if p.cap > 0 { RecordKeepsLast(p.terminalClaims, p.cap, claim, turn); }
    }
  }

  lemma {:induction false} OnlyKeyLeaves(keys: seq<TurnKey>, key: TurnKey)
    requires DistinctKeys(keys)
    ensures forall k :: k in WithoutKey(keys, key) <==> k in keys && k != key
  {
    if keys != [] { OnlyKeyLeaves(keys[1..], key); }
  }

  /** Releasing is a conflict exactly if the id names another claim, and then nothing changes; otherwise the
      claim, and no other, is gone. */
  lemma ReleaseConflictIff(p: Pool, claim: Claim)
    requires Unique(p.claims)
    ensures var (q, outcome) := Release(p, claim);
      (outcome.Conflict? <==> exists s <- p.claims :: s.claim.id == claim.id && s.claim != claim)
      && (outcome.Conflict? ==> q == p)
      && (outcome.Done? ==> q == p.(claims := q.claims) && forall s :: s in q.claims <==> s in p.claims && s.claim != claim)
  {
    HasIsMembership(p.claims, claim.id);
    WithoutFacts(p.claims, claim.id);
    if Has(p.claims, claim.id) { assert p.claims[IndexOf(p.claims, claim.id)] in p.claims; }
  }

  /** Claiming is a conflict exactly if the id is in the table for another endpoint or thread. */
  lemma ClaimConflictIff(p: Pool, endpoint: EndpointId, thread: ThreadId, id: ClaimId)
    requires Unique(p.claims)
    ensures var (q, outcome) := CreateClaim(p, endpoint, thread, id);
      (outcome.Conflict? <==> exists s <- p.claims :: s.claim.id == id && (s.claim.endpoint != endpoint || s.claim.thread != thread))
      && (outcome.Done? ==> exists s <- q.claims :: s.claim == outcome.value && s.claim.id == id && s.claim.endpoint == endpoint && s.claim.thread == thread)
      && (forall s :: s in p.claims ==> s in q.claims)
  {
    HasIsMembership(p.claims, id);
    var (q, outcome) := CreateClaim(p, endpoint, thread, id);
    if Has(p.claims, id) { assert p.claims[IndexOf(p.claims, id)] in p.claims; }
    else { assert q.claims[|p.claims|] in q.claims; }
  }

  /** The end of a turn takes exactly the claims that are active with it; with none, it is recorded as early. */
  lemma EndedTurnReleases(p: Pool, key: TurnKey)
    requires Unique(p.claims) && Recorded(p)
    ensures var q := MarkTurnTerminal(p, key);
      var held := exists s <- p.claims :: s.claim.endpoint == key.endpoint && s.claim.thread == key.thread && s.phase == Active(key.turn);
      (forall s :: s in q.claims <==>
         s in p.claims && !(s.claim.endpoint == key.endpoint && s.claim.thread == key.thread && s.phase == Active(key.turn)))
      && (key in q.terminalBeforeStart <==> key in p.terminalBeforeStart || (!held && p.cap > 0))
      && (held ==> q.terminalBeforeStart == p.terminalBeforeStart)
      && (!held ==> q.claims == p.claims && q.terminalClaims == p.terminalClaims)
  {
    OthersFacts(p.claims, key);
    HoldersFacts(p.claims, key);
    if !(exists s <- p.claims :: Holds(s, key)) {
      NoHolderFacts(p.claims, key);
      var all := p.terminalBeforeStart + [key];
      assert all[|all| - 1] == key;
      if |all| > p.cap && p.cap > 0 { assert all[1..][|all| - 2] == key; }
    }
  }

  /** However an implicit start comes back, its provisional claim is gone and no other claim has moved; a turn
      that is answered and had ended before is taken off the early ends and remembered for the claim. */
  lemma ImplicitStartLeaves(p: Pool, claim: Claim, reply: Reply)
    requires Unique(p.claims) && Recorded(p) && ClaimState(claim, Provisional) in p.claims
    ensures var q := FinishImplicitStart(p, claim, reply);
      var early := reply.Answered? && TurnKey(claim.endpoint, claim.thread, reply.turn) in p.terminalBeforeStart;
      (forall s :: s in q.claims <==> s in p.claims && s.claim != claim)
      && (forall k :: k in q.terminalBeforeStart <==>
            k in p.terminalBeforeStart && !(early && k == TurnKey(claim.endpoint, claim.thread, reply.turn)))
      && (if early then p.cap > 0 ==> TerminalClaim(claim, reply.turn) in q.terminalClaims else q.terminalClaims == p.terminalClaims)
  {
    var i :| 0 <= i < |p.claims| && p.claims[i] == ClaimState(claim, Provisional);
    MemberIsGet(p.claims, p.claims[i]);
    ReleaseConflictIff(p, claim);
    if reply.Answered? {
      BindOfProvisional(p, claim, reply.turn, i);
      BindFacts(p, claim, reply.turn);
      var q := Bind(p, claim, reply.turn).0;
      ReleaseConflictIff(q, claim);
      BoundClaims(p, claim, reply.turn, i);
    }
  }

  lemma BoundClaims(p: Pool, claim: Claim, turn: TurnId, i: nat)
    requires Unique(p.claims) && Recorded(p) && i < |p.claims| && p.claims[i] == ClaimState(claim, Provisional)
    ensures forall s :: s in Bind(p, claim, turn).0.claims && s.claim != claim <==> s in p.claims && s.claim != claim
  {
    BindOfProvisional(p, claim, turn, i);
    var after := Bind(p, claim, turn).0.claims;
    forall s | s in p.claims && s.claim != claim
      ensures s in after
    {
      var j :| 0 <= j < |p.claims| && p.claims[j] == s;
      assert j != i;
      if |after| == |p.claims| { assert after[j] == s; } else { assert after[if j < i then j else j - 1] == s; }
    }
  }

  /** An implicit claim that is bound already is released by the answer of its own turn and by a failure; the
      answer of another turn leaves it. */
  lemma BoundImplicitStart(p: Pool, claim: Claim, turn: TurnId, reply: Reply)
    requires Unique(p.claims) && ClaimState(claim, Active(turn)) in p.claims
    ensures var q := FinishImplicitStart(p, claim, reply);
      if reply == Failed || reply == Answered(turn)
      then q == p.(claims := q.claims) && forall s :: s in q.claims <==> s in p.claims && s.claim != claim
      else q == p
  {
    MemberIsGet(p.claims, ClaimState(claim, Active(turn)));
    ReleaseConflictIff(p, claim);
  }

  /** `claim` is the only claim that ever has its generation, and a bound one keeps its turn. */
  predicate Keeps(t: Table, s: ClaimState)
  {
    s.claim.generation < t.pool.nextGeneration
    && forall r :: r in t.pool.claims && r.claim.generation == s.claim.generation ==>
        r.claim == s.claim && (s.phase.Active? ==> r == s)
  }

  lemma KeepsStays(t: Table, ev: Event, s: ClaimState)
    requires Inv(t) && Enabled(t, ev) && Keeps(t, s)
    ensures Keeps(Next(t, ev), s)
  {
    var p := t.pool;
    match ev
    case Bound(claim, turn) => BindFacts(p, claim, turn);
    case Released(claim) => WithoutFacts(p.claims, claim.id);
    case TurnEnded(key) => MarkTerminalFacts(p, key);
    case EndpointLost(endpoint) => NotOnFacts(p.claims, endpoint);
    case ImplicitReplied(serial, reply) =>
      var claim := t.starts[serial];
      HasIsMembership(p.claims, claim.id);
      FinishFacts(p, claim, reply);
    case _ =>
  }

  /** Over any run a generation names one claim for good, and a bound claim never changes its turn. */
  lemma BoundClaimNeverChangesTurn(
      states: seq<Table>, events: seq<Event>, i: nat, j: nat, s: ClaimState, r: ClaimState)
    requires IsRun(Init, Step, states, events) && i <= j < |states|
    requires s in states[i].pool.claims && r in states[j].pool.claims
    requires s.claim.generation == r.claim.generation
    ensures r.claim == s.claim
    ensures s.phase.Active? ==> r == s
  {
    TraceKeepsInv(states, events, i);
    StepKeepsInv();
    forall t: Table, ev: Event, u: Table | Inv(t) && Keeps(t, s) && Step(t, ev, u)
      ensures Keeps(u, s)
    {
      KeepsStays(t, ev, s);
    }
    HoldsFrom(Init, Step, Inv, (ev: Event) => true, (t: Table) => Keeps(t, s), states, events, i, j);
    assert Keeps(states[j], s);
  }

  /** A new claim is given a generation above every generation issued before it. */
  lemma GenerationsIncrease(t: Table, endpoint: EndpointId, thread: ThreadId, id: ClaimId)
    requires Inv(t) && !Has(t.pool.claims, id)
    ensures var (q, claim) := CreateClaim(t.pool, endpoint, thread, id);
      claim.Done? && ClaimState(claim.value, Provisional) in q.claims && q.nextGeneration > claim.value.generation
      && forall s :: s in t.pool.claims ==> s.claim.generation < claim.value.generation
  {
    var (q, claim) := CreateClaim(t.pool, endpoint, thread, id);
    assert q.claims[|t.pool.claims|] == ClaimState(claim.value, Provisional);
  }

  /** An implicit claim in the table belongs to a `startTurn` still awaiting its reply; once that
      call is over, on any path and whatever happens later, the claim is never in the table. */
  lemma ImplicitClaimNeverOutlivesStart(states: seq<Table>, events: seq<Event>, i: nat, j: nat, serial: nat)
    requires IsRun(Init, Step, states, events) && i < |events| && i < j < |states|
    requires events[i].ImplicitReplied? && events[i].serial == serial
    ensures !Has(states[j].pool.claims, Implicit(serial))
  {
    TraceKeepsInv(states, events, i);
    TraceKeepsInv(states, events, j);
    StepKeepsInv();
    assert Step(states[i], events[i], states[i + 1]);
    forall t: Table, ev: Event, u: Table | Inv(t) && Replied(t, serial) && Step(t, ev, u)
      ensures Replied(u, serial)
    {
      RepliedStays(t, ev, serial);
    }
    HoldsFrom(Init, Step, Inv, (ev: Event) => true, (t: Table) => Replied(t, serial), states, events, i + 1, j);
    assert Replied(states[j], serial);
    HasIsMembership(states[j].pool.claims, Implicit(serial));
  }

  predicate Replied(t: Table, serial: nat)
  {
    serial < t.nextSerial && serial !in t.starts
  }

  lemma RepliedStays(t: Table, ev: Event, serial: nat)
    requires Inv(t) && Enabled(t, ev) && Replied(t, serial)
    ensures Replied(Next(t, ev), serial)
  {
  }

  // ---------------------------------------------------------------- binding and ending a turn commute

  lemma {:induction false} NoHolderFacts(claims: seq<ClaimState>, key: TurnKey)
    requires forall s :: s in claims ==> !Holds(s, key)
    ensures Holders(claims, key) == [] && Others(claims, key) == claims
  {
    if claims != [] {
      assert claims[0] in claims && forall s :: s in claims[1..] ==> s in claims;
      NoHolderFacts(claims[1..], key);
    }
  }

  lemma {:induction false} HoldersFacts(claims: seq<ClaimState>, key: TurnKey)
    ensures forall s :: s in Holders(claims, key) <==> s in claims && Holds(s, key)
  {
    if claims != [] {
      HoldersFacts(claims[1..], key);
      assert claims == [claims[0]] + claims[1..];
    }
  }

  lemma {:induction false} OneHolderFacts(claims: seq<ClaimState>, i: nat, key: TurnKey)
    requires i < |claims| && Holds(claims[i], key)
    requires forall j :: 0 <= j < |claims| && j != i ==> !Holds(claims[j], key)
    ensures Holders(claims, key) == [claims[i]] && Others(claims, key) == claims[..i] + claims[i + 1..]
  {
    if i == 0 {
      NoHolderFacts(claims[1..], key);
      assert claims[..0] + claims[1..] == claims[1..];
    } else {
      OneHolderFacts(claims[1..], i - 1, key);
      assert claims[..i] + claims[i + 1..] == [claims[0]] + (claims[1..][..i - 1] + claims[1..][i..]);
    }
  }

  lemma {:induction false} WithoutLastKey(keys: seq<TurnKey>, key: TurnKey)
    requires key !in keys
    ensures WithoutKey(keys + [key], key) == keys
  {
    if keys == [] {
      assert keys + [key] == [key];
    } else {
      assert (keys + [key])[1..] == keys[1..] + [key];
      WithoutLastKey(keys[1..], key);
    }
  }

  function BindThenEnd(p: Pool, claim: Claim, turn: TurnId): Pool
  {
    MarkTurnTerminal(Bind(p, claim, turn).0, TurnKey(claim.endpoint, claim.thread, turn))
  }

  function EndThenBind(p: Pool, claim: Claim, turn: TurnId): Pool
  {
    Bind(MarkTurnTerminal(p, TurnKey(claim.endpoint, claim.thread, turn)), claim, turn).0
  }

  /** A turn that ends after its start is bound, and no earlier record of it: released and remembered. */
  lemma BindThenEndResult(p: Pool, claim: Claim, turn: TurnId)
    requires Unique(p.claims) && ClaimState(claim, Provisional) in p.claims
    requires var key := TurnKey(claim.endpoint, claim.thread, turn);
      (forall s :: s in p.claims ==> !Holds(s, key)) && key !in p.terminalBeforeStart
    ensures BindThenEnd(p, claim, turn) == RecordTerminal(p, claim, turn).(claims := Without(p.claims, claim.id))
  {
    var key := TurnKey(claim.endpoint, claim.thread, turn);
    var i := IndexOf(p.claims, claim.id);
    var state := ClaimState(claim, Active(turn));
    var q := Bind(p, claim, turn).0;
    MemberIsGet(p.claims, ClaimState(claim, Provisional));
    assert q == p.(claims := p.claims[i := state]);
    OneHolderFacts(q.claims, i, key);
    assert q.claims[..i] + q.claims[i + 1..] == Without(p.claims, claim.id);
    assert WithTerminals(q.terminalClaims, q.cap, [state], turn) == WithTerminal(q.terminalClaims, q.cap, claim, turn) by {
      assert [state][..0] == [];
    }
  }

  predicate CommuteCondition(p: Pool, key: TurnKey)
  {
    (forall s :: s in p.claims ==> !Holds(s, key)) && key !in p.terminalBeforeStart && |p.terminalBeforeStart| < p.cap
  }

  lemma FullRecordDoesNotCommute(p: Pool, claim: Claim, turn: TurnId)
    requires Unique(p.claims) && Recorded(p) && ClaimState(claim, Provisional) in p.claims
    requires forall s :: s in p.claims ==> !Holds(s, TurnKey(claim.endpoint, claim.thread, turn))
    requires TurnKey(claim.endpoint, claim.thread, turn) !in p.terminalBeforeStart && |p.terminalBeforeStart| == p.cap
    ensures BindThenEnd(p, claim, turn) != EndThenBind(p, claim, turn)
  {
    var key := TurnKey(claim.endpoint, claim.thread, turn);
    MemberIsGet(p.claims, ClaimState(claim, Provisional));
    NoHolderFacts(p.claims, key);
    BindThenEndResult(p, claim, turn);
    var ended := MarkTurnTerminal(p, key);
    if p.cap == 0 {
      WithoutFacts(p.claims, claim.id);
      assert p.terminalBeforeStart == [] && ended == p;
      assert Bind(p, claim, turn).0.claims[IndexOf(p.claims, claim.id)].claim == claim;
      HasIsMembership(Without(p.claims, claim.id), claim.id);
    } else {
      var kept := p.terminalBeforeStart[1..];
      assert ended.terminalBeforeStart == kept + [key];
      assert key in ended.terminalBeforeStart && key !in kept;
      WithoutLastKey(kept, key);
      assert EndThenBind(p, claim, turn).terminalBeforeStart == kept;
      assert |kept| < |p.terminalBeforeStart|;
    }
  }

  lemma FreeTurnCommutes(p: Pool, claim: Claim, turn: TurnId)
    requires Unique(p.claims) && Recorded(p) && ClaimState(claim, Provisional) in p.claims
    requires CommuteCondition(p, TurnKey(claim.endpoint, claim.thread, turn))
    ensures BindThenEnd(p, claim, turn) == EndThenBind(p, claim, turn)
  {
    var key := TurnKey(claim.endpoint, claim.thread, turn);
    MemberIsGet(p.claims, ClaimState(claim, Provisional));
    NoHolderFacts(p.claims, key);
    BindThenEndResult(p, claim, turn);
    WithoutLastKey(p.terminalBeforeStart, key);
  }

  /** For a provisional claim, binding its turn and ending it give one table in either order exactly
      when no active claim holds the turn, its end is not already recorded, and recording it evicts nothing. */
  lemma BindAndEndCommuteIff(p: Pool, claim: Claim, turn: TurnId)
    requires Unique(p.claims) && Recorded(p) && ClaimState(claim, Provisional) in p.claims
    ensures BindThenEnd(p, claim, turn) == EndThenBind(p, claim, turn)
      <==> CommuteCondition(p, TurnKey(claim.endpoint, claim.thread, turn))
  {
    var key := TurnKey(claim.endpoint, claim.thread, turn);
    MemberIsGet(p.claims, ClaimState(claim, Provisional));
    if exists s :: s in p.claims && Holds(s, key) {
      if key in p.terminalBeforeStart { HeldAndRecordedTurnDoesNotCommute(p, claim, turn); }
      else { HeldTurnDoesNotCommute(p, claim, turn); }
    } else if key in p.terminalBeforeStart {
      RecordedTurnDoesNotCommute(p, claim, turn);
    } else if |p.terminalBeforeStart| < p.cap {
      FreeTurnCommutes(p, claim, turn);
    } else {
      FullRecordDoesNotCommute(p, claim, turn);
    }
  }

  lemma RecordKeepsLast(terminals: seq<TerminalClaim>, cap: nat, claim: Claim, turn: TurnId)
    requires cap > 0
    ensures var all := WithTerminal(terminals, cap, claim, turn);
      all != [] && all[|all| - 1] == TerminalClaim(claim, turn)
  {
  }

  lemma EndOfHeldTurn(p: Pool, key: TurnKey)
    requires Unique(p.claims) && exists s :: s in p.claims && Holds(s, key)
    ensures var q := MarkTurnTerminal(p, key);
      q.terminalBeforeStart == p.terminalBeforeStart && q.cap == p.cap && Unique(q.claims)
      && (forall s :: s in q.claims <==> s in p.claims && !Holds(s, key))
  {
    HoldersFacts(p.claims, key);
    OthersFacts(p.claims, key);
  }

  /** The other holder's end does not reach this claim, which is then bound to a turn already over. */
  lemma HeldTurnDoesNotCommute(p: Pool, claim: Claim, turn: TurnId)
    requires Unique(p.claims) && Recorded(p) && ClaimState(claim, Provisional) in p.claims
    requires exists s :: s in p.claims && Holds(s, TurnKey(claim.endpoint, claim.thread, turn))
    requires TurnKey(claim.endpoint, claim.thread, turn) !in p.terminalBeforeStart
    ensures BindThenEnd(p, claim, turn) != EndThenBind(p, claim, turn)
  {
    var key := TurnKey(claim.endpoint, claim.thread, turn);
    var active := ClaimState(claim, Active(turn));
    EndOfHeldTurn(p, key);
    var ended := MarkTurnTerminal(p, key);
    MemberIsGet(ended.claims, ClaimState(claim, Provisional));
    assert EndThenBind(p, claim, turn).claims[IndexOf(ended.claims, claim.id)] == active;
    MemberIsGet(p.claims, ClaimState(claim, Provisional));
    BindFacts(p, claim, turn);
    var bound := Bind(p, claim, turn).0;
    assert bound.claims[IndexOf(p.claims, claim.id)] == active && Holds(active, key);
    EndOfHeldTurn(bound, key);
    assert active !in BindThenEnd(p, claim, turn).claims;
  }

  /** Bound first, this claim is remembered first and the other holders after it. */
  lemma OtherHolderIsLast(p: Pool, claim: Claim, turn: TurnId, other: ClaimState)
    requires Unique(p.claims) && ClaimState(claim, Provisional) in p.claims && p.cap > 0
    requires TurnKey(claim.endpoint, claim.thread, turn) in p.terminalBeforeStart
    requires other in p.claims && Holds(other, TurnKey(claim.endpoint, claim.thread, turn))
    ensures var terminals := BindThenEnd(p, claim, turn).terminalClaims;
      terminals != [] && terminals[|terminals| - 1].claim.id != claim.id
  {
    var key := TurnKey(claim.endpoint, claim.thread, turn);
    MemberIsGet(p.claims, ClaimState(claim, Provisional));
    MemberIsGet(p.claims, other);
    WithoutFacts(p.claims, claim.id);
    var bound := Bind(p, claim, turn).0;
    HoldersFacts(bound.claims, key);
    var holders := Holders(bound.claims, key);
    assert other in holders;
    var last := holders[|holders| - 1];
    assert last in holders && last.claim.id != claim.id;
    RecordKeepsLast(WithTerminals(bound.terminalClaims, p.cap, holders[..|holders| - 1], turn), p.cap, last.claim, turn);
  }

  lemma ThisClaimIsLast(p: Pool, claim: Claim, turn: TurnId)
    requires Unique(p.claims) && ClaimState(claim, Provisional) in p.claims && p.cap > 0
    requires exists s :: s in p.claims && Holds(s, TurnKey(claim.endpoint, claim.thread, turn))
    requires TurnKey(claim.endpoint, claim.thread, turn) in p.terminalBeforeStart
    ensures var terminals := EndThenBind(p, claim, turn).terminalClaims;
      terminals != [] && terminals[|terminals| - 1].claim == claim
  {
    var key := TurnKey(claim.endpoint, claim.thread, turn);
    EndOfHeldTurn(p, key);
    var ended := MarkTurnTerminal(p, key);
    MemberIsGet(ended.claims, ClaimState(claim, Provisional));
    RecordKeepsLast(ended.terminalClaims, p.cap, claim, turn);
  }

  lemma HeldAndRecordedTurnDoesNotCommute(p: Pool, claim: Claim, turn: TurnId)
    requires Unique(p.claims) && Recorded(p) && ClaimState(claim, Provisional) in p.claims
    requires exists s :: s in p.claims && Holds(s, TurnKey(claim.endpoint, claim.thread, turn))
    requires TurnKey(claim.endpoint, claim.thread, turn) in p.terminalBeforeStart
    ensures BindThenEnd(p, claim, turn) != EndThenBind(p, claim, turn)
  {
    var other :| other in p.claims && Holds(other, TurnKey(claim.endpoint, claim.thread, turn));
    OtherHolderIsLast(p, claim, turn, other);
    ThisClaimIsLast(p, claim, turn);
  }

  lemma RecordedTurnDoesNotCommute(p: Pool, claim: Claim, turn: TurnId)
    requires Unique(p.claims) && Recorded(p)
    requires Has(p.claims, claim.id) && Get(p.claims, claim.id) == ClaimState(claim, Provisional)
    requires forall s :: s in p.claims ==> !Holds(s, TurnKey(claim.endpoint, claim.thread, turn))
    requires TurnKey(claim.endpoint, claim.thread, turn) in p.terminalBeforeStart
    ensures BindThenEnd(p, claim, turn) != EndThenBind(p, claim, turn)
  {
    var key := TurnKey(claim.endpoint, claim.thread, turn);
    NoHolderFacts(p.claims, key);
    WithoutKeyFacts(p.terminalBeforeStart, key);
    var bound := Bind(p, claim, turn).0;
    WithoutFacts(p.claims, claim.id);
    NoHolderFacts(bound.claims, key);
    assert |MarkTurnTerminal(bound, key).terminalBeforeStart| == |p.terminalBeforeStart|;
  }
}

/**
 `settleEarlierEndpointOperations`: what a restart or disconnect does with the earlier unresolved
 operations of its endpoint. Another instance shares the ledger, so its rows may move before any
 statement; the rest of the world moves only while this call awaits. `peers` says how.
 */
module LifecycleFence {
  import opened Common
  import opened RecoveryDecisions

  predicate Terminal(state: OpState)
  {
    state == Succeeded || state == Failed
  }

  predicate MayBecome(a: OpState, b: OpState)
  {
    match a
    case Prepared => true
    case Dispatched => b != Prepared
    case Uncertain => b == Uncertain || Terminal(b)
    case _ => a == b
  }

  predicate SameRow(a: Operation, b: Operation)
  {
    a.id == b.id && a.sequence == b.sequence && a.kind == b.kind && a.args == b.args && MayBecome(a.state, b.state)
  }

  /** Rows keep their identity and move forward; a new row gets a sequence above every other. */
  predicate Evolves(before: seq<Operation>, after: seq<Operation>)
  {
    |before| <= |after|
    && (forall i :: 0 <= i < |before| ==> SameRow(before[i], after[i]))
    && (forall i, j :: 0 <= i < |before| <= j < |after| ==> before[i].sequence < after[j].sequence)
    && Ordered(after)
  }

  /** Rows stand in the order of their sequences, which are distinct, as are their ids. */
  predicate Ordered(rows: seq<Operation>)
  {
    forall i, j :: 0 <= i < j < |rows| ==> rows[i].sequence < rows[j].sequence && rows[i].id != rows[j].id
  }

  predicate HasSequence(rows: seq<Operation>, sequence: nat)
  {
    exists i :: 0 <= i < |rows| && rows[i].sequence == sequence
  }

  predicate IsEarlier(op: Operation, resolver: Resolver, current: nat, endpoint: EndpointId)
  {
    Unsettled(op.state) && op.sequence < current && IsOn(TargetOf(op, resolver), endpoint)
  }

  /** The earlier unresolved operations of the endpoint, oldest first. */
  function Earlier(rows: seq<Operation>, resolver: Resolver, current: nat, endpoint: EndpointId): seq<Operation>
  {
    if rows == [] then []
    else
      var last := |rows| - 1;
      Earlier(rows[..last], resolver, current, endpoint)
      + if IsEarlier(rows[last], resolver, current, endpoint) then [rows[last]] else []
  }

  lemma {:induction false} EarlierFacts(rows: seq<Operation>, resolver: Resolver, current: nat, endpoint: EndpointId)
    ensures forall op :: op in Earlier(rows, resolver, current, endpoint) <==> op in rows && IsEarlier(op, resolver, current, endpoint)
  {
    if rows != [] {
      var last := |rows| - 1;
      EarlierFacts(rows[..last], resolver, current, endpoint);
      assert rows == rows[..last] + [rows[last]];
    }
  }


  /** What never stands in the way of a restart or disconnect: an endpoint recovery, the assistant's own
      restart, compaction and attachments, and an interrupt or send that is proven not to have been
      dispatched. */
  lemma NeverInTheWay(rows: seq<Operation>, resolver: Resolver, current: nat, endpoint: EndpointId, op: Operation)
    requires op in Earlier(rows, resolver, current, endpoint)
    ensures op.kind != RecoverEndpoint
    ensures op.kind == RestartEndpoint ==> resolver.assistantEndpoint != Some(endpoint)
    ensures op.kind == CompactSession || op.kind == PrepareChatAttachment ==> !op.args.assistant
    ensures op.kind == InterruptSession || op.kind == SendToSession ==> !RetiresAsNeverDispatched(op)
  {
    EarlierFacts(rows, resolver, current, endpoint);
  }

  predicate ActsOnItsSession(op: Operation)
  {
    match op.kind
    case InterruptSession => !RetiresAsNeverDispatched(op)
    case SendToSession => !RetiresAsNeverDispatched(op)
    case SetGoal => true
    case PauseGoal => true
    case ResumeGoal => true
    case CancelGoal => true
    case _ => false
  }

  /** What always stands in the way of it: an earlier interrupt, send or goal of a session on the endpoint
      that is in flight or in doubt, unless it is proven not to have been dispatched; an earlier lifecycle
      action on it; and nothing that is on another endpoint. */
  lemma StandsInTheWay(rows: seq<Operation>, resolver: Resolver, current: nat, endpoint: EndpointId, op: Operation)
    requires op in rows && op.sequence < current && (op.state == Dispatched || op.state == Uncertain)
    ensures ActsOnItsSession(op) && HasSessionOn(op, resolver, endpoint) ==> op in Earlier(rows, resolver, current, endpoint)
    ensures op.kind == DisconnectEndpoint && IsAbout(op, resolver, endpoint) ==> op in Earlier(rows, resolver, current, endpoint)
    ensures op.kind == RestartEndpoint && IsAbout(op, resolver, endpoint) && resolver.assistantEndpoint != Some(endpoint) ==>
      op in Earlier(rows, resolver, current, endpoint)
    ensures op in Earlier(rows, resolver, current, endpoint) ==>
      TargetOf(op, resolver) == ReadyEndpoint(endpoint) || TargetOf(op, resolver) == Lifecycle(endpoint)
  {
    EarlierFacts(rows, resolver, current, endpoint);
    ReadyTargetIff(op, resolver, endpoint);
    LifecycleTargetIff(op, resolver, endpoint);
  }

  /** How many operations before `current` are not settled for good; waiting lowers it. */
  function OpenBefore(rows: seq<Operation>, current: nat): nat
  {
    if rows == [] then 0
    else
      var last := |rows| - 1;
      OpenBefore(rows[..last], current) + if rows[last].sequence < current && !Terminal(rows[last].state) then 1 else 0
  }

  lemma EvolvesPrefix(before: seq<Operation>, after: seq<Operation>)
    requires Evolves(before, after) && before != [] && |before| == |after|
    ensures Evolves(before[..|before| - 1], after[..|after| - 1])
  {
  }

  lemma {:induction false} OpenNeverGrows(before: seq<Operation>, after: seq<Operation>, current: nat)
    requires Evolves(before, after) && (HasSequence(before, current) || |before| == |after|)
    ensures OpenBefore(after, current) <= OpenBefore(before, current)
    decreases |after|
  {
    if |after| > |before| {
      var i :| 0 <= i < |before| && before[i].sequence == current;
      assert after[|after| - 1].sequence > current;
      OpenNeverGrows(before, after[..|after| - 1], current);
    } else if before != [] {
      EvolvesPrefix(before, after);
      OpenNeverGrows(before[..|before| - 1], after[..|after| - 1], current);
    }
  }

  lemma {:induction false} SettlingLowersOpen(before: seq<Operation>, after: seq<Operation>, current: nat, i: nat)
    requires Evolves(before, after) && (HasSequence(before, current) || |before| == |after|)
    requires i < |before| && before[i].sequence < current && !Terminal(before[i].state) && Terminal(after[i].state)
    ensures OpenBefore(after, current) < OpenBefore(before, current)
    decreases |after|
  {
    if |after| > |before| {
      var k :| 0 <= k < |before| && before[k].sequence == current;
      assert after[|after| - 1].sequence > current;
      SettlingLowersOpen(before, after[..|after| - 1], current, i);
    } else {
      EvolvesPrefix(before, after);
      if i == |before| - 1 {
        OpenNeverGrows(before[..i], after[..i], current);
      } else {
        SettlingLowersOpen(before[..|before| - 1], after[..|after| - 1], current, i);
      }
    }
  }

  lemma EvolvesRefl(rows: seq<Operation>)
    requires Ordered(rows)
    ensures Evolves(rows, rows)
  {
  }

  lemma EvolvesTrans(a: seq<Operation>, b: seq<Operation>, c: seq<Operation>)
    requires Evolves(a, b) && Evolves(b, c)
    ensures Evolves(a, c)
  {
    forall i, j | 0 <= i < |a| <= j < |c|
      ensures a[i].sequence < c[j].sequence
    {
      assert SameRow(a[i], b[i]) && b[i].sequence == a[i].sequence;
      if j < |b| { assert SameRow(b[j], c[j]); }
    }
    forall i | 0 <= i < |a|
      ensures SameRow(a[i], c[i])
    {
      assert SameRow(a[i], b[i]) && SameRow(b[i], c[i]);
    }
  }

  // ---------------------------------------------------------------- one look at the list

  datatype Refusal =
    | StillDispatched
    | AwaitingAuthentication
    | DispatchedStraggler
    | OwesReplacement
    | RowMoved
    | TimedOut
    | ReconcileFailed

  datatype Decision = Refuse(reason: Refusal) | Release(retire: seq<OperationId>) | WaitFor(id: OperationId)

  function SubsumedIds(ops: seq<Operation>, restart: bool, resolver: Resolver): seq<OperationId>
  {
    if ops == [] then []
    else (if SubsumedByLifecycle(ops[0], restart, resolver) then [ops[0].id] else []) + SubsumedIds(ops[1..], restart, resolver)
  }

  lemma {:induction false} SubsumedFacts(ops: seq<Operation>, restart: bool, resolver: Resolver)
    ensures forall id :: id in SubsumedIds(ops, restart, resolver) ==>
      exists op :: op in ops && op.id == id && SubsumedByLifecycle(op, restart, resolver)
    ensures forall op :: op in ops && SubsumedByLifecycle(op, restart, resolver) ==> op.id in SubsumedIds(ops, restart, resolver)
  {
    if ops != [] {
      SubsumedFacts(ops[1..], restart, resolver);
      assert ops[0] in ops && forall op :: op in ops[1..] ==> op in ops;
      assert forall op :: op in ops ==> op == ops[0] || op in ops[1..];
    }
  }

  /** The unforced fence looking at a non-empty list. */
  function Decide(unresolved: seq<Operation>, ready: bool, awaiting: bool, restart: bool, resolver: Resolver): Decision
    requires unresolved != []
  {
    if unresolved[0].state != Uncertain then Refuse(StillDispatched)
    else if ready then WaitFor(unresolved[0].id)
    else if awaiting then Refuse(AwaitingAuthentication)
    else if exists op <- unresolved :: op.state != Uncertain then Refuse(DispatchedStraggler)
    else if exists op <- unresolved :: TargetOf(op, resolver).Lifecycle? && !SubsumedByLifecycle(op, restart, resolver)
      then Refuse(OwesReplacement)
    else Release(SubsumedIds(unresolved, restart, resolver))
  }

  /** When an unforced action refuses, in terms of what it reads: the oldest earlier row is in flight,
      whatever the health of the endpoint; or the endpoint does not answer and it waits for a login, has
      another row in flight, or owes a restart that a disconnect would leave undone. */
  predicate Explains(reason: Refusal, unresolved: seq<Operation>, ready: bool, awaiting: bool, restart: bool, resolver: Resolver)
    requires unresolved != []
  {
    match reason
    case StillDispatched => unresolved[0].state != Uncertain
    case AwaitingAuthentication => unresolved[0].state == Uncertain && !ready && awaiting
    case DispatchedStraggler =>
      unresolved[0].state == Uncertain && !ready && !awaiting && exists op <- unresolved :: op.state != Uncertain
    case OwesReplacement =>
      !ready && !awaiting && (forall op <- unresolved :: op.state == Uncertain)
      && !restart && exists op <- unresolved :: op.kind == RestartEndpoint && TargetOf(op, resolver).Lifecycle?
    case _ => false
  }

  /** Every look at a non-empty list refuses, waits or releases exactly when it must: it waits exactly for an
      uncertain oldest row on a ready endpoint, and releases exactly when nothing is in flight on an
      endpoint that does not answer and nothing is owed. */
  lemma LookIsDecided(unresolved: seq<Operation>, ready: bool, awaiting: bool, restart: bool, resolver: Resolver)
    requires unresolved != []
    ensures var decision := Decide(unresolved, ready, awaiting, restart, resolver);
      (forall reason :: decision == Refuse(reason) <==> Explains(reason, unresolved, ready, awaiting, restart, resolver))
      && (decision.WaitFor? <==> unresolved[0].state == Uncertain && ready)
      && (decision.WaitFor? ==> decision.id == unresolved[0].id)
      && (decision.Release? <==> NothingIsOwed(unresolved, ready, awaiting, restart, resolver))
  {
    assert unresolved[0] in unresolved;
    forall op <- unresolved
      ensures TargetOf(op, resolver).Lifecycle? && !SubsumedByLifecycle(op, restart, resolver)
        <==> op.kind == RestartEndpoint && TargetOf(op, resolver).Lifecycle? && !restart
    {
    }
  }

  lemma LookFacts(unresolved: seq<Operation>, ready: bool, awaiting: bool, restart: bool, resolver: Resolver)
    requires unresolved != []
    ensures var decision := Decide(unresolved, ready, awaiting, restart, resolver);
      (decision.Refuse? ==> Explains(decision.reason, unresolved, ready, awaiting, restart, resolver))
      && (decision == Refuse(StillDispatched) <==> unresolved[0].state != Uncertain)
      && (decision.WaitFor? <==> unresolved[0].state == Uncertain && ready)
      && (decision.Release? ==> NothingIsOwed(unresolved, ready, awaiting, restart, resolver))
  {
    LookIsDecided(unresolved, ready, awaiting, restart, resolver);
  }

  /** An endpoint that does not answer, with nothing in flight on it and no restart that would be left undone. */
  predicate NothingIsOwed(unresolved: seq<Operation>, ready: bool, awaiting: bool, restart: bool, resolver: Resolver)
  {
    !ready && !awaiting && (forall op <- unresolved :: op.state == Uncertain)
    && (restart || forall op <- unresolved :: op.kind == RestartEndpoint ==> !TargetOf(op, resolver).Lifecycle?)
  }

  lemma NothingEarlier(rows: seq<Operation>, resolver: Resolver, current: nat, endpoint: EndpointId)
    requires Earlier(rows, resolver, current, endpoint) == []
    ensures forall op :: op in rows ==> !IsEarlier(op, resolver, current, endpoint)
  {
    EarlierFacts(rows, resolver, current, endpoint);
    assert forall op :: op !in Earlier(rows, resolver, current, endpoint);
  }

  lemma OldestIsEarlier(rows: seq<Operation>, resolver: Resolver, current: nat, endpoint: EndpointId)
    requires Earlier(rows, resolver, current, endpoint) != []
    ensures Earlier(rows, resolver, current, endpoint)[0].sequence < current
  {
    EarlierFacts(rows, resolver, current, endpoint);
    assert Earlier(rows, resolver, current, endpoint)[0] in Earlier(rows, resolver, current, endpoint);
  }

  /** A release leaves only uncertain rows, and retires every lifecycle row among them and nothing else. */
  lemma ReleaseIsSafe(unresolved: seq<Operation>, ready: bool, awaiting: bool, restart: bool, resolver: Resolver)
    requires unresolved != [] && Decide(unresolved, ready, awaiting, restart, resolver).Release?
    ensures !ready && !awaiting && forall op :: op in unresolved ==> op.state == Uncertain
    ensures var retire := Decide(unresolved, ready, awaiting, restart, resolver).retire;
      (forall op :: op in unresolved && TargetOf(op, resolver).Lifecycle? ==> op.id in retire)
      && forall id :: id in retire ==> exists op :: op in unresolved && op.id == id && SubsumedByLifecycle(op, restart, resolver)
  {
    SubsumedFacts(unresolved, restart, resolver);
  }

  // ---------------------------------------------------------------- the call itself

  datatype Outcome = Proceed | Satisfied | Conflict(reason: Refusal)

  /** What the others make of the world by the next time it is looked at. */
  datatype Peer = Peer(rows: seq<Operation>, resolver: Resolver, ready: bool, awaiting: bool, failing: bool)

  predicate OldestIsUncertain(rows: seq<Operation>, resolver: Resolver, current: nat, endpoint: EndpointId)
  {
    var unresolved := Earlier(rows, resolver, current, endpoint);
    unresolved != [] ==> unresolved[0].state == Uncertain
  }

  /** A wait for an operation: the row as it was read, and whether the endpoint was ready. */
  datatype Waited = Waited(row: Operation, ready: bool)

  /** Every wait that was added was for an earlier row that was uncertain, on an endpoint that was ready. */
  predicate Due(before: seq<Waited>, after: seq<Waited>, current: nat)
  {
    before <= after && forall w :: w in after[|before|..] ==> w.ready && w.row.state == Uncertain && w.row.sequence < current
  }

  lemma OneMoreWait(before: seq<Waited>, after: seq<Waited>, row: Operation, current: nat)
    requires Due(before, after, current) && row.state == Uncertain && row.sequence < current
    ensures Due(before, after + [Waited(row, true)], current)
  {
    assert (after + [Waited(row, true)])[|before|..] == after[|before|..] + [Waited(row, true)];
  }

  predicate Retirable(listed: seq<Operation>, id: OperationId, resolver: Resolver, current: nat, endpoint: EndpointId, restart: bool)
  {
    exists op <- listed :: op.id == id && IsEarlier(op, resolver, current, endpoint) && op.state == Uncertain
                           && SubsumedByLifecycle(op, restart, resolver)
  }

  /** Whatever the fence retires is an earlier, uncertain disconnect or restart of this very endpoint: a
      disconnect retires no restart, and nothing retires a send or an action on the assistant's endpoint. */
  lemma RetiredIsLifecycle(listed: seq<Operation>, id: OperationId, resolver: Resolver, current: nat, endpoint: EndpointId, restart: bool, op: Operation)
    requires Ordered(listed) && Retirable(listed, id, resolver, current, endpoint, restart) && op in listed && op.id == id
    ensures op.state == Uncertain && op.sequence < current && IsAbout(op, resolver, endpoint)
    ensures op.kind == DisconnectEndpoint || (op.kind == RestartEndpoint && restart && resolver.assistantEndpoint != Some(endpoint))
  {
    var retired :| retired in listed && retired.id == id && IsEarlier(retired, resolver, current, endpoint) && retired.state == Uncertain
      && SubsumedByLifecycle(retired, restart, resolver);
    assert op == retired;
    LifecycleTargetIff(op, resolver, endpoint);
  }

  predicate IsFailed(rows: seq<Operation>, id: OperationId)
  {
    exists op <- rows :: op.id == id && op.state == Failed
  }

  lemma FailedStays(before: seq<Operation>, after: seq<Operation>, id: OperationId)
    requires Evolves(before, after) && IsFailed(before, id)
    ensures IsFailed(after, id)
  {
    var op :| op in before && op.id == id && op.state == Failed;
    var i :| 0 <= i < |before| && before[i] == op;
    assert SameRow(before[i], after[i]) && after[i] in after;
  }

  /** Every row that was read as earlier is settled by now, or is still uncertain and no lifecycle action. */
  ghost predicate ClearedRows(listed: seq<Operation>, rows: seq<Operation>, seen: Resolver, current: nat, endpoint: EndpointId)
    requires |listed| <= |rows|
  {
    forall i :: 0 <= i < |listed| && IsEarlier(listed[i], seen, current, endpoint) ==>
      Terminal(rows[i].state) || (rows[i].state == Uncertain && !TargetOf(listed[i], seen).Lifecycle?)
  }

  /** After any moves of others a row is still the only one with its id. */
  lemma SameRowOnly(before: seq<Operation>, after: seq<Operation>, k: nat)
    requires Evolves(before, after) && k < |before|
    ensures SameRow(before[k], after[k]) && after[k] in after
    ensures forall op :: op in after && op.id == before[k].id ==> op == after[k]
  {
    forall op | op in after && op.id == before[k].id
      ensures op == after[k]
    {
      var i :| 0 <= i < |after| && after[i] == op;
      assert SameRow(before[k], after[k]);
    }
  }

  lemma FailedAt(rows: seq<Operation>, i: nat)
    requires Ordered(rows) && i < |rows| && IsFailed(rows, rows[i].id)
    ensures rows[i].state == Failed
  {
    var k :| 0 <= k < |rows| && rows[k].id == rows[i].id && rows[k].state == Failed;
  }

  /** What the rows look like once the list was cleared and what was retired is failed, whoever else has
      written since the list was read. */
  lemma ClearedLedger(listed: seq<Operation>, rows: seq<Operation>, retired: seq<OperationId>, seen: Resolver, current: nat, endpoint: EndpointId)
    requires Ordered(listed) && Evolves(listed, rows)
    requires forall op :: op in listed && IsEarlier(op, seen, current, endpoint) ==>
      op.state == Uncertain && (TargetOf(op, seen).Lifecycle? ==> op.id in retired)
    requires forall id :: id in retired ==> IsFailed(rows, id)
    ensures ClearedRows(listed, rows, seen, current, endpoint)
  {
    forall i | 0 <= i < |listed| && IsEarlier(listed[i], seen, current, endpoint)
      ensures Terminal(rows[i].state) || (rows[i].state == Uncertain && !TargetOf(listed[i], seen).Lifecycle?)
    {
      assert listed[i] in listed && SameRow(listed[i], rows[i]);
      if listed[i].id in retired { FailedAt(rows, i); }
    }
  }

  class Ledger {
    var rows: seq<Operation>
    var resolver: Resolver
    var ready: bool
    var awaitingAuthentication: bool
    var peers: seq<Peer>
    ghost var waits: nat
    ghost var waitedFor: seq<Waited>
    ghost var retired: seq<OperationId>

    constructor (rows: seq<Operation>, resolver: Resolver, ready: bool, awaiting: bool, peers: seq<Peer>)
      ensures this.rows == rows && this.resolver == resolver && this.ready == ready && awaitingAuthentication == awaiting
      ensures this.peers == peers && waits == 0 && waitedFor == [] && retired == []
    {
      this.rows, this.resolver, this.ready, awaitingAuthentication, this.peers := rows, resolver, ready, awaiting, peers;
      waits, waitedFor, retired := 0, [], [];
    }

    /** The other instance writes to the shared ledger between two statements of this call. */
    method OthersWrite()
      requires Ordered(rows)
      modifies this`rows, this`peers
      ensures Evolves(old(rows), rows)
    {
      if peers != [] {
        if Evolves(rows, peers[0].rows) { rows := peers[0].rows; }
        peers := peers[1..];
      }
    }

    /** Everything may move during an await, and the await itself may fail. */
    method Await() returns (ok: bool)
      requires Ordered(rows)
      modifies this`rows, this`peers, this`resolver, this`ready, this`awaitingAuthentication, this`waits
      ensures Evolves(old(rows), rows) && waits == old(waits) + 1
    {
      waits := waits + 1;
      ok := peers == [] || !peers[0].failing;
      if peers != [] {
        resolver, ready, awaitingAuthentication := peers[0].resolver, peers[0].ready, peers[0].awaiting;
        OthersWrite();
      }
    }

    method WaitForTerminal(id: OperationId) returns (ok: bool)
      requires Ordered(rows)
      modifies this`rows, this`peers, this`resolver, this`ready, this`awaitingAuthentication, this`waits
      ensures Evolves(old(rows), rows) && waits == old(waits) + 1
      ensures ok <==> forall op :: op in rows && op.id == id ==> Terminal(op.state)
    {
      var _ := Await();
      ok := forall op <- rows :: op.id == id ==> Terminal(op.state);
    }

    /** Compare-and-set: it fails a row that is not settled, and reports a row that is. */
    method Fail(id: OperationId) returns (ok: bool)
      requires Ordered(rows)
      modifies this`rows, this`peers, this`retired
      ensures Evolves(old(rows), rows)
      ensures retired == if ok then old(retired) + [id] else old(retired)
      ensures ok ==> IsFailed(rows, id)
    {
      OthersWrite();
      ghost var before := rows;
      for i := 0 to |rows|
        invariant rows == before && Ordered(rows) && Evolves(old(rows), rows) && retired == old(retired)
      {
        if rows[i].id == id && !Terminal(rows[i].state) {
          rows := rows[i := rows[i].(state := Failed)];
          retired := retired + [id];
          assert Evolves(before, rows);
          EvolvesTrans(old(rows), before, rows);
          assert rows[i] in rows;
          return true;
        }
      }
      return false;
    }

    /** What this call has retired since then stands failed. */
    ghost predicate AreFailed(retiredBefore: seq<OperationId>)
      reads this`retired, this`rows
    {
      retiredBefore <= retired && forall id :: id in retired[|retiredBefore|..] ==> IsFailed(rows, id)
    }

    /** The forced branch: retire what is uncertain and subsumed, whoever else settles it first. */
    method RetireForced(captured: seq<Operation>, restart: bool)
      requires Ordered(rows)
      modifies this`rows, this`peers, this`retired
      ensures Evolves(old(rows), rows) && AreFailed(old(retired))
      ensures forall id :: id in retired[|old(retired)|..] ==>
        exists op :: op in captured && op.id == id && op.state == Uncertain && SubsumedByLifecycle(op, restart, resolver)
    {
      for i := 0 to |captured|
        invariant Ordered(rows) && Evolves(old(rows), rows) && AreFailed(old(retired))
        invariant forall id :: id in retired[|old(retired)|..] ==>
          exists op :: op in captured && op.id == id && op.state == Uncertain && SubsumedByLifecycle(op, restart, resolver)
      {
        if captured[i].state == Uncertain && SubsumedByLifecycle(captured[i], restart, resolver) {
          ghost var before := rows;
          ghost var retiredBefore := retired;
          assert captured[i] in captured;
          var _ := Fail(captured[i].id);
          EvolvesTrans(old(rows), before, rows);
          assert retired[|old(retired)|..] == retiredBefore[|old(retired)|..]
            || retired[|old(retired)|..] == retiredBefore[|old(retired)|..] + [captured[i].id];
          forall id | id in retiredBefore[|old(retired)|..]
            ensures IsFailed(rows, id)
          {
            FailedStays(before, rows, id);
          }
        }
      }
    }

    /** The unreachable branch: retire them all, or report that one has moved. */
    method RetireAll(ids: seq<OperationId>) returns (ok: bool)
      requires Ordered(rows)
      modifies this`rows, this`peers, this`retired
      ensures Evolves(old(rows), rows) && AreFailed(old(retired))
      ensures retired[|old(retired)|..] <= ids && (ok ==> retired[|old(retired)|..] == ids)
    {
      for i := 0 to |ids|
        invariant Ordered(rows) && Evolves(old(rows), rows)
        invariant retired == old(retired) + ids[..i] && forall id :: id in ids[..i] ==> IsFailed(rows, id)
      {
        ghost var before := rows;
        ok := Fail(ids[i]);
        EvolvesTrans(old(rows), before, rows);
        forall id | id in ids[..i]
          ensures IsFailed(rows, id)
        {
          FailedStays(before, rows, id);
        }
        if !ok { return; }
        assert ids[..i + 1] == ids[..i] + [ids[i]];
      }
      ok := true;
      assert ids[..|ids|] == ids;
    }

    /** The branch for an endpoint that does not answer. */
    method ReleaseEndpoint(unresolved: seq<Operation>, restart: bool, current: nat, endpoint: EndpointId) returns (ok: bool)
      requires Ordered(rows) && unresolved == Earlier(rows, resolver, current, endpoint)
      requires unresolved != [] && Decide(unresolved, ready, awaitingAuthentication, restart, resolver).Release?
      modifies this`rows, this`peers, this`retired
      ensures Evolves(old(rows), rows) && OnlyRetires(old(rows), resolver, old(retired), current, endpoint, restart)
      ensures AreFailed(old(retired))
      ensures ok ==> Cleared(old(rows), resolver, old(retired), current, endpoint)
    {
      var retire := Decide(unresolved, ready, awaitingAuthentication, restart, resolver).retire;
      EarlierFacts(rows, resolver, current, endpoint);
      ReleaseIsSafe(unresolved, ready, awaitingAuthentication, restart, resolver);
      assert forall id :: id in retire ==> Retirable(rows, id, resolver, current, endpoint, restart);
      ok := RetireAll(retire);
      assert forall id :: id in retired[|old(retired)|..] ==> id in retire;
    }

    method TryRelease(unresolved: seq<Operation>, restart: bool, current: nat, endpoint: EndpointId) returns (refusal: Option<Refusal>)
      requires Ordered(rows) && unresolved == Earlier(rows, resolver, current, endpoint)
      requires unresolved != [] && Decide(unresolved, ready, awaitingAuthentication, restart, resolver).Release?
      modifies this`rows, this`peers, this`retired
      ensures Evolves(old(rows), rows) && OnlyRetires(old(rows), resolver, old(retired), current, endpoint, restart)
      ensures AreFailed(old(retired))
      ensures if refusal.None? then Cleared(old(rows), resolver, old(retired), current, endpoint) else refusal == Some(RowMoved)
    {
      var ok := ReleaseEndpoint(unresolved, restart, current, endpoint);
      refusal := if ok then None else Some(RowMoved);
    }

    /** Whatever is retired was, when last read, earlier, on this endpoint, uncertain and subsumed. */
    ghost predicate OnlyRetires(listed: seq<Operation>, seen: Resolver, retiredBefore: seq<OperationId>,
                                current: nat, endpoint: EndpointId, restart: bool)
      reads this`retired
    {
      retiredBefore <= retired
      && forall id :: id in retired[|retiredBefore|..] ==> Retirable(listed, id, seen, current, endpoint, restart)
    }

    /** Of the earlier rows last read none is in flight and every lifecycle row has been retired. */
    ghost predicate Cleared(listed: seq<Operation>, seen: Resolver, retiredBefore: seq<OperationId>, current: nat, endpoint: EndpointId)
      reads this`retired
    {
      retiredBefore <= retired
      && forall op :: op in listed && IsEarlier(op, seen, current, endpoint) ==>
           op.state == Uncertain && (TargetOf(op, seen).Lifecycle? ==> op.id in retired[|retiredBefore|..])
    }

    /** One wait lowers the number of open earlier operations. */
    method WaitOnce(oldest: Operation, current: nat, endpoint: EndpointId) returns (ok: bool)
      requires Ordered(rows) && HasSequence(rows, current)
      requires oldest in Earlier(rows, resolver, current, endpoint)
      modifies this`rows, this`peers, this`resolver, this`ready, this`awaitingAuthentication, this`waits, this`waitedFor
      ensures Evolves(old(rows), rows) && HasSequence(rows, current)
      ensures waitedFor == old(waitedFor) + [Waited(oldest, old(ready))]
      ensures if ok then OpenBefore(rows, current) < OpenBefore(old(rows), current)
              else exists op :: op in rows && op.id == oldest.id && op.sequence < current && !Terminal(op.state)
    {
      EarlierFacts(rows, resolver, current, endpoint);
      waitedFor := waitedFor + [Waited(oldest, ready)];
      ghost var k :| 0 <= k < |rows| && rows[k] == oldest;
      ok := WaitForTerminal(oldest.id);
      SequenceStays(old(rows), rows, current);
      SameRowOnly(old(rows), rows, k);
      if ok {
        SettlingLowersOpen(old(rows), rows, current, k);
      }
    }

    /** Each refusal is justified by what was read last: by the list and the endpoint's health, by a row that
        was waited for in vain, or by one that moved while the endpoint was released. */
    ghost predicate Justified(reason: Refusal, listed: seq<Operation>, restart: bool, current: nat, endpoint: EndpointId)
      reads this`resolver, this`ready, this`awaitingAuthentication, this`rows, this`waitedFor
    {
      var unresolved := Earlier(listed, resolver, current, endpoint);
      match reason
      case ReconcileFailed => true
      case TimedOut =>
        waitedFor != []
        && exists op :: op in rows && op.id == waitedFor[|waitedFor| - 1].row.id && op.sequence < current && !Terminal(op.state)
      case RowMoved =>
        unresolved != [] && NothingIsOwed(unresolved, ready, awaitingAuthentication, restart, resolver)
      case _ => unresolved != [] && Explains(reason, unresolved, ready, awaitingAuthentication, restart, resolver)
    }

    /** So was every wait since then. */
    ghost predicate WaitsAreDue(before: seq<Waited>, current: nat)
      reads this`waitedFor
    {
      Due(before, waitedFor, current)
    }

    /** One turn of the waiting loop: refuse, release the endpoint, or wait and go round again. */
    method LookOnce(unresolved: seq<Operation>, restart: bool, current: nat, endpoint: EndpointId)
      returns (more: bool, refusal: Option<Refusal>)
      requires Ordered(rows) && HasSequence(rows, current)
      requires unresolved != [] && unresolved == Earlier(rows, resolver, current, endpoint)
      modifies this
      ensures Evolves(old(rows), rows)
      ensures more || refusal == Some(TimedOut) ==> retired == old(retired) && HasSequence(rows, current)
      ensures more ==> refusal.None? && OpenBefore(rows, current) < OpenBefore(old(rows), current)
      // An oldest row in flight is refused at once; a wait needs an uncertain one and a ready endpoint.
      ensures refusal == Some(StillDispatched) <==> unresolved[0].state != Uncertain
      ensures more || refusal == Some(TimedOut) <==> unresolved[0].state == Uncertain && old(ready)
      ensures waitedFor == if unresolved[0].state == Uncertain && old(ready) then old(waitedFor) + [Waited(unresolved[0], true)] else old(waitedFor)
      ensures unresolved[0].sequence < current
      ensures refusal.Some? ==> Justified(refusal.value, if refusal == Some(TimedOut) then rows else old(rows), restart, current, endpoint)
      ensures !more && refusal != Some(TimedOut) ==>
        resolver == old(resolver) && OnlyRetires(old(rows), resolver, old(retired), current, endpoint, restart) && AreFailed(old(retired))
        && (refusal.None? ==> Cleared(old(rows), resolver, old(retired), current, endpoint))
    {
      var decision := Decide(unresolved, ready, awaitingAuthentication, restart, resolver);
      LookFacts(unresolved, ready, awaitingAuthentication, restart, resolver);
      OldestIsEarlier(rows, resolver, current, endpoint);
      if decision.Refuse? {
        return false, Some(decision.reason);
      } else if decision.Release? {
        refusal := TryRelease(unresolved, restart, current, endpoint);
        return false, refusal;
      } else {
        more := WaitOnce(unresolved[0], current, endpoint);
        refusal := if more then None else Some(TimedOut);
      }
    }

    /** The waiting loop. `drained`: nothing earlier is left, otherwise the endpoint was released. */
    method AwaitEarlier(current: nat, endpoint: EndpointId, restart: bool)
      returns (refusal: Option<Refusal>, drained: bool, ghost listed: seq<Operation>)
      requires Ordered(rows) && HasSequence(rows, current)
      modifies this
      ensures Evolves(old(rows), listed) && Evolves(listed, rows)
      ensures OnlyRetires(listed, resolver, old(retired), current, endpoint, restart) && AreFailed(old(retired))
      ensures WaitsAreDue(old(waitedFor), current)
      ensures refusal.Some? ==> Justified(refusal.value, listed, restart, current, endpoint)
      ensures refusal.None? ==> Cleared(listed, resolver, old(retired), current, endpoint)
      ensures refusal.None? ==> (drained <==> Earlier(listed, resolver, current, endpoint) == [])
      ensures refusal.None? && drained ==> rows == listed && retired == old(retired)
    {
      EvolvesRefl(rows);
      var unresolved := Earlier(rows, resolver, current, endpoint);
      while unresolved != []
        invariant Ordered(rows) && HasSequence(rows, current) && Evolves(old(rows), rows) && retired == old(retired)
        invariant unresolved == Earlier(rows, resolver, current, endpoint) && WaitsAreDue(old(waitedFor), current)
        decreases OpenBefore(rows, current)
      {
        listed := rows;
        ghost var waited, oldest := waitedFor, unresolved[0];
        var more;
        more, refusal := LookOnce(unresolved, restart, current, endpoint);
        if waitedFor != waited { OneMoreWait(old(waitedFor), waited, oldest, current); }
        if !more && refusal != Some(TimedOut) { return refusal, false, listed; }
        EvolvesTrans(old(rows), listed, rows);
        EvolvesRefl(rows);
        if !more { return refusal, false, rows; }
        unresolved := Earlier(rows, resolver, current, endpoint);
      }
      EvolvesRefl(rows);
      NothingEarlier(rows, resolver, current, endpoint);
      return None, true, rows;
    }

    /** Reconcile once, then the waiting loop. */
    method SettleUnforced(current: nat, endpoint: EndpointId, restart: bool)
      returns (refusal: Option<Refusal>, drained: bool, ghost listed: seq<Operation>)
      requires Ordered(rows) && HasSequence(rows, current)
      modifies this
      ensures Evolves(old(rows), listed) && Evolves(listed, rows)
      ensures OnlyRetires(listed, resolver, old(retired), current, endpoint, restart) && AreFailed(old(retired))
      ensures WaitsAreDue(old(waitedFor), current)
      ensures refusal.Some? ==> Justified(refusal.value, listed, restart, current, endpoint)
      ensures refusal.None? ==> Cleared(listed, resolver, old(retired), current, endpoint)
      ensures refusal.None? ==> (drained <==> Earlier(listed, resolver, current, endpoint) == [])
      ensures refusal.None? ==> OldestIsUncertain(listed, resolver, current, endpoint)
    {
      var ok := Await();
      SequenceStays(old(rows), rows, current);
      EvolvesRefl(rows);
      if !ok { return Some(ReconcileFailed), false, rows; }
      ghost var reconciled := rows;
      refusal, drained, listed := AwaitEarlier(current, endpoint, restart);
      EarlierFacts(listed, resolver, current, endpoint);
      EvolvesTrans(old(rows), reconciled, listed);
    }

    /** The forced branch retires only what it may, without waiting. */
    method ForceEarlier(captured: seq<Operation>, restart: bool, current: nat, endpoint: EndpointId)
      requires Ordered(rows) && captured == Earlier(rows, resolver, current, endpoint)
      modifies this`rows, this`peers, this`retired
      ensures Evolves(old(rows), rows) && OnlyRetires(old(rows), resolver, old(retired), current, endpoint, restart)
      ensures AreFailed(old(retired))
    {
      EarlierFacts(rows, resolver, current, endpoint);
      RetireForced(captured, restart);
      forall id | id in retired[|old(retired)|..]
        ensures Retirable(old(rows), id, resolver, current, endpoint, restart)
      {
        var op :| op in captured && op.id == id && op.state == Uncertain && SubsumedByLifecycle(op, restart, resolver);
        assert op in old(rows) && IsEarlier(op, resolver, current, endpoint);
      }
    }

    /** `captured` is what was earlier at the call, `listed` and `seen` what was last read. */
    method SettleEarlier(current: nat, endpoint: EndpointId, restart: bool, force: bool)
      returns (outcome: Outcome, ghost captured: seq<Operation>, ghost listed: seq<Operation>, ghost seen: Resolver)
      requires Ordered(rows) && HasSequence(rows, current)
      modifies this
      ensures captured == Earlier(old(rows), old(resolver), current, endpoint)
      ensures Evolves(old(rows), listed) && Evolves(listed, rows)
      ensures OnlyRetires(listed, seen, old(retired), current, endpoint, restart) && AreFailed(old(retired))
      ensures WaitsAreDue(old(waitedFor), current)
      // A forced call never waits and never refuses.
      ensures force ==> outcome == Proceed && waits == old(waits) && listed == old(rows)
      ensures !force && !outcome.Conflict? ==>
        Cleared(listed, seen, old(retired), current, endpoint) && ClearedRows(listed, rows, seen, current, endpoint)
      ensures outcome.Conflict? ==> !force && captured != [] && Justified(outcome.reason, listed, restart, current, endpoint)
      // If the oldest earlier row last read is in flight, the call is a conflict.
      ensures !force && !outcome.Conflict? ==> OldestIsUncertain(listed, seen, current, endpoint)
      // Satisfied: nothing earlier is left and the newest of what was captured is this same action, done.
      ensures outcome == Satisfied <==>
        !force && captured != [] && !outcome.Conflict? && Earlier(listed, seen, current, endpoint) == []
        && captured[|captured| - 1].kind == (if restart then RestartEndpoint else DisconnectEndpoint)
        && exists op :: op in rows && op.id == captured[|captured| - 1].id && op.state == Succeeded
      ensures !force && captured == [] ==> outcome == Proceed && waits == old(waits) && rows == old(rows)
    {
      listed, seen := rows, resolver;
      var first := Earlier(rows, resolver, current, endpoint);
      captured := first;
      EarlierFacts(rows, resolver, current, endpoint);
      EvolvesRefl(rows);
      if first == [] { return Proceed, captured, listed, seen; }
      if force {
        ForceEarlier(first, restart, current, endpoint);
        return Proceed, captured, listed, seen;
      }
      var refusal, drained;
      refusal, drained, listed := SettleUnforced(current, endpoint, restart);
      seen := resolver;
      if refusal.Some? { return Conflict(refusal.value), captured, listed, seen; }
      ClearedLedger(listed, rows, retired[|old(retired)|..], seen, current, endpoint);
      var last := first[|first| - 1];
      var same := last.kind == if restart then RestartEndpoint else DisconnectEndpoint;
      var succeeded := exists op <- rows :: op.id == last.id && op.state == Succeeded;
      return if drained && same && succeeded then Satisfied else Proceed, captured, listed, seen;
    }
  }

  lemma SequenceStays(before: seq<Operation>, after: seq<Operation>, sequence: nat)
    requires Evolves(before, after) && HasSequence(before, sequence)
    ensures HasSequence(after, sequence)
  {
    var i :| 0 <= i < |before| && before[i].sequence == sequence;
    assert SameRow(before[i], after[i]);
  }
}

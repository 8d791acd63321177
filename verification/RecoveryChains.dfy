/**
 One recovery pass over the ledger's unresolved rows (`runOperationRecoveryChains`), and the
 verdict a pass reaches on a row it attempted (`settleRecoveryPassVerdict`), over any number of
 passes. Targets and outcomes are read while the pass runs, so they are arbitrary per position.
 */
module RecoveryChains {
  import opened Common
  import opened RecoveryDecisions

  // ---------------------------------------------------------------- the order of attempts

  function Insert(op: Operation, sorted: seq<Operation>): seq<Operation>
  {
    if sorted == [] || op.sequence <= sorted[0].sequence then [op] + sorted else [sorted[0]] + Insert(op, sorted[1..])
  }

  function BySequence(ops: seq<Operation>): seq<Operation>
  {
    if ops == [] then [] else Insert(ops[0], BySequence(ops[1..]))
  }

  predicate Ascending(ops: seq<Operation>)
  {
    forall i, j :: 0 <= i < j < |ops| ==> ops[i].sequence < ops[j].sequence
  }

  predicate DistinctSequences(ops: seq<Operation>)
  {
    forall i, j :: 0 <= i < j < |ops| ==> ops[i].sequence != ops[j].sequence
  }

  lemma ConsAscends(head: Operation, rest: seq<Operation>)
    requires Ascending(rest) && forall other :: other in rest ==> head.sequence < other.sequence
    ensures Ascending([head] + rest)
  {
  }

  lemma {:induction false} InsertElements(op: Operation, sorted: seq<Operation>)
    ensures multiset(Insert(op, sorted)) == multiset{op} + multiset(sorted)
    ensures forall other :: other in Insert(op, sorted) <==> other == op || other in sorted
  {
    if sorted != [] && op.sequence > sorted[0].sequence {
      InsertElements(op, sorted[1..]);
      assert sorted == [sorted[0]] + sorted[1..];
    }
  }

  lemma {:induction false} InsertFacts(op: Operation, sorted: seq<Operation>)
    requires Ascending(sorted) && forall other :: other in sorted ==> other.sequence != op.sequence
    ensures Ascending(Insert(op, sorted)) && multiset(Insert(op, sorted)) == multiset{op} + multiset(sorted)
  {
    InsertElements(op, sorted);
    if sorted != [] && op.sequence > sorted[0].sequence {
      InsertFacts(op, sorted[1..]);
      InsertElements(op, sorted[1..]);
      ConsAscends(sorted[0], Insert(op, sorted[1..]));
    } else if sorted != [] {
      ConsAscends(op, sorted);
    }
  }

  lemma {:induction false} BySequenceFacts(ops: seq<Operation>)
    requires DistinctSequences(ops)
    ensures Ascending(BySequence(ops)) && multiset(BySequence(ops)) == multiset(ops)
  {
    if ops != [] {
      BySequenceFacts(ops[1..]);
      assert ops == [ops[0]] + ops[1..];
      forall other | other in BySequence(ops[1..])
        ensures other.sequence != ops[0].sequence
      {
        assert other in multiset(ops[1..]);
        var i :| 0 <= i < |ops[1..]| && ops[1..][i] == other;
        assert ops[i + 1] == other;
      }
      InsertFacts(ops[0], BySequence(ops[1..]));
    }
  }

  lemma BySequenceLength(ops: seq<Operation>)
    requires DistinctSequences(ops)
    ensures |BySequence(ops)| == |ops|
  {
    BySequenceFacts(ops);
    assert |multiset(BySequence(ops))| == |multiset(ops)|;
  }

  lemma SameHead(a: seq<Operation>, b: seq<Operation>)
    requires Ascending(a) && Ascending(b) && a != [] && b != [] && a[0] in b && b[0] in a
    ensures a[0] == b[0]
  {
    var i :| 0 <= i < |b| && b[i] == a[0];
    var j :| 0 <= j < |a| && a[j] == b[0];
    assert b[0].sequence <= b[i].sequence && a[0].sequence <= a[j].sequence;
    assert j == 0;
  }

  lemma {:induction false} AscendingIsUnique(a: seq<Operation>, b: seq<Operation>)
    requires Ascending(a) && Ascending(b) && multiset(a) == multiset(b)
    ensures a == b
  {
    if a == [] || b == [] {
      assert |multiset(a)| == |multiset(b)|;
    } else {
      assert a[0] in multiset(b) && b[0] in multiset(a);
      SameHead(a, b);
      TailsMatch(a, b);
      AscendingIsUnique(a[1..], b[1..]);
      assert a == [a[0]] + a[1..] && b == [b[0]] + b[1..];
    }
  }

  lemma TailCounts(a: seq<Operation>)
    requires a != []
    ensures multiset(a[1..]) == multiset(a) - multiset{a[0]}
    ensures Ascending(a) ==> Ascending(a[1..])
  {
    assert a == [a[0]] + a[1..];
  }

  lemma TailsMatch(a: seq<Operation>, b: seq<Operation>)
    requires Ascending(a) && Ascending(b) && multiset(a) == multiset(b) && a != [] && b != [] && a[0] == b[0]
    ensures Ascending(a[1..]) && Ascending(b[1..]) && multiset(a[1..]) == multiset(b[1..])
  {
    TailCounts(a);
    TailCounts(b);
  }

  /** The attempt order does not depend on the order in which the rows were listed. */
  lemma OrderIgnoresInput(a: seq<Operation>, b: seq<Operation>)
    requires DistinctSequences(a) && DistinctSequences(b) && multiset(a) == multiset(b)
    ensures BySequence(a) == BySequence(b)
  {
    BySequenceFacts(a);
    BySequenceFacts(b);
    AscendingIsUnique(BySequence(a), BySequence(b));
  }

  // ---------------------------------------------------------------- one pass

  datatype Outcome = StillUnsettled | SettledNow | WaitingForEndpoint

  /** What position `k` of the pass meets: where its row is routed and how its attempt would end. */
  datatype Meeting = Meeting(target: Target, outcome: Outcome)

  predicate Endpointed(target: Target)
  {
    target.ReadyEndpoint? || target.Lifecycle?
  }

  predicate SameEndpoint(a: Target, b: Target)
  {
    Endpointed(a) && Endpointed(b) && a.endpoint == b.endpoint
  }

  /** Row `k` is attempted: no earlier attempted row of its endpoint stayed unsettled, and unless it
      is a lifecycle action none was parked. */
  predicate Attempts(meetings: seq<Meeting>, k: nat)
    requires k < |meetings|
  {
    forall j :: 0 <= j < k && Attempts(meetings, j) && SameEndpoint(meetings[j].target, meetings[k].target) ==>
      meetings[j].outcome != StillUnsettled
      && (meetings[j].outcome == WaitingForEndpoint ==> meetings[k].target.Lifecycle?)
  }

  ghost predicate Holds(meetings: seq<Meeting>, k: nat, endpoint: EndpointId, outcome: Outcome)
    requires k <= |meetings|
  {
    exists j :: 0 <= j < k && Attempts(meetings, j) && IsOn(meetings[j].target, endpoint) && meetings[j].outcome == outcome
  }

  /** The endpoints that the rows before `k` hold back with this outcome. */
  ghost predicate Tracks(held: set<EndpointId>, meetings: seq<Meeting>, k: nat, outcome: Outcome)
    requires k <= |meetings|
  {
    forall endpoint :: endpoint in held <==> Holds(meetings, k, endpoint, outcome)
  }

  /** The loop of the pass. `meetings[k]` is what it would meet at the k-th oldest row. */
  method RunChains(entries: seq<Operation>, meetings: seq<Meeting>)
    returns (attempted: seq<Operation>, positions: seq<nat>, unfinished: set<EndpointId>)
    requires |meetings| == |entries| && DistinctSequences(entries)
    ensures |BySequence(entries)| == |entries|
    ensures |positions| == |attempted| && forall i :: 0 <= i < |positions| ==>
      positions[i] < |entries| && attempted[i] == BySequence(entries)[positions[i]]
    ensures forall i, j :: 0 <= i < j < |positions| ==> positions[i] < positions[j]
    ensures forall k :: 0 <= k < |entries| ==> (k in positions <==> Attempts(meetings, k))
    ensures forall endpoint :: endpoint in unfinished <==>
      Holds(meetings, |entries|, endpoint, StillUnsettled) || Holds(meetings, |entries|, endpoint, WaitingForEndpoint)
  {
    var ordered := BySequence(entries);
    BySequenceLength(entries);
    var blocked: set<EndpointId>, parked: set<EndpointId> := {}, {};
    attempted, positions := [], [];
    for k := 0 to |ordered|
      invariant |positions| == |attempted|
      invariant forall i :: 0 <= i < |positions| ==> positions[i] < k && attempted[i] == ordered[positions[i]]
      invariant forall i, j :: 0 <= i < j < |positions| ==> positions[i] < positions[j]
      invariant forall j :: 0 <= j < k ==> (j in positions <==> Attempts(meetings, j))
      invariant Tracks(blocked, meetings, k, StillUnsettled) && Tracks(parked, meetings, k, WaitingForEndpoint)
    {
      var target := meetings[k].target;
      AttemptsByTracked(blocked, parked, meetings, k);
      TracksStep(blocked, meetings, k, StillUnsettled);
      TracksStep(parked, meetings, k, WaitingForEndpoint);
      if Endpointed(target) && target.endpoint in blocked { continue; }
      if Endpointed(target) && target.endpoint in parked && !target.Lifecycle? { continue; }
      attempted, positions := attempted + [ordered[k]], positions + [k];
      if !Endpointed(target) || meetings[k].outcome == SettledNow { continue; }
      if meetings[k].outcome == WaitingForEndpoint {
        parked := parked + {target.endpoint};
      } else {
        blocked := blocked + {target.endpoint};
      }
    }
    unfinished := blocked + parked;
  }

  lemma HoldsGrows(meetings: seq<Meeting>, k: nat)
    requires k < |meetings|
    ensures forall endpoint, outcome :: Holds(meetings, k + 1, endpoint, outcome) <==>
      Holds(meetings, k, endpoint, outcome)
      || (Attempts(meetings, k) && IsOn(meetings[k].target, endpoint) && meetings[k].outcome == outcome)
  {
    forall endpoint, outcome
      ensures Holds(meetings, k + 1, endpoint, outcome) <==>
        Holds(meetings, k, endpoint, outcome)
        || (Attempts(meetings, k) && IsOn(meetings[k].target, endpoint) && meetings[k].outcome == outcome)
    {
      if Holds(meetings, k, endpoint, outcome) {
        var j :| 0 <= j < k && Attempts(meetings, j) && IsOn(meetings[j].target, endpoint) && meetings[j].outcome == outcome;
        assert 0 <= j < k + 1;
      }
    }
  }

  lemma AttemptsByTracked(blocked: set<EndpointId>, parked: set<EndpointId>, meetings: seq<Meeting>, k: nat)
    requires k < |meetings| && Tracks(blocked, meetings, k, StillUnsettled) && Tracks(parked, meetings, k, WaitingForEndpoint)
    ensures var target := meetings[k].target;
      Attempts(meetings, k) <==>
        !Endpointed(target) || (target.endpoint !in blocked && (target.endpoint in parked ==> target.Lifecycle?))
  {
  }

  lemma TracksStep(held: set<EndpointId>, meetings: seq<Meeting>, k: nat, outcome: Outcome)
    requires k < |meetings| && Tracks(held, meetings, k, outcome)
    ensures var target := meetings[k].target;
      Tracks(if Attempts(meetings, k) && Endpointed(target) && meetings[k].outcome == outcome then held + {target.endpoint} else held,
             meetings, k + 1, outcome)
  {
    HoldsGrows(meetings, k);
  }

  predicate OnOneEndpoint(a: Target, b: Target)
  {
    (a.ReadyEndpoint? || a.Lifecycle?) && (b.ReadyEndpoint? || b.Lifecycle?) && a.endpoint == b.endpoint
  }

  /** What holds a row back: an attempted older row of its endpoint that is still unsettled, or, for a row
      that is not a lifecycle action, one that waits for the endpoint. A row without an endpoint, and one
      whose older rows have all been settled, is always attempted. */
  lemma HeldBack(meetings: seq<Meeting>, j: nat, k: nat)
    requires j < k < |meetings| && Attempts(meetings, j) && OnOneEndpoint(meetings[j].target, meetings[k].target)
    ensures meetings[j].outcome == StillUnsettled ==> !Attempts(meetings, k)
    ensures meetings[j].outcome == WaitingForEndpoint && meetings[k].target.ReadyEndpoint? ==> !Attempts(meetings, k)
  {
  }

  lemma NothingHoldsBack(meetings: seq<Meeting>, k: nat)
    requires k < |meetings|
    requires forall j :: 0 <= j < k && OnOneEndpoint(meetings[j].target, meetings[k].target) ==> meetings[j].outcome == SettledNow
    ensures Attempts(meetings, k)
  {
  }

  /** The oldest row of an endpoint is always attempted, and a lifecycle row is held back only by an
      unsettled row: parked sends in front of it do not stop it. */
  lemma LifecyclePassesParked(meetings: seq<Meeting>, k: nat)
    requires k < |meetings| && meetings[k].target.Lifecycle?
    requires forall j :: 0 <= j < k && SameEndpoint(meetings[j].target, meetings[k].target) ==> meetings[j].outcome != StillUnsettled
    ensures Attempts(meetings, k)
  {
  }

  // ---------------------------------------------------------------- the verdict and its streak

  /** The recovery columns of a row. */
  datatype Streak = Streak(state: OpState, failures: nat, startedAt: Option<int>)

  /** One attempted pass: what it left the row in, the route it took, the two readings of the clock,
      and whether the ledger took the count and the final failure. */
  datatype Pass = Pass(state: OpState, target: Target, countedAt: int, judgedAt: int, recorded: bool, retired: bool)

  datatype Budget = Budget(maxFailures: nat, minElapsed: nat)

  function Recorded(row: Streak, now: int): Streak
  {
    row.(failures := row.failures + 1, startedAt := if row.startedAt.Some? then row.startedAt else Some(now))
  }

  /** The row after the verdict, and whether it is still unsettled. */
  function Verdict(row: Streak, pass: Pass, budget: Budget): (Streak, bool)
  {
    if !Unsettled(row.state) then (row.(failures := 0, startedAt := None), false)
    else if !pass.target.Lifecycle? || row.state != Uncertain || !pass.recorded then (row, true)
    else
      var counted := Recorded(row, pass.countedAt);
      var elapsed := pass.judgedAt - counted.startedAt.value;
      if LifecycleRecoveryExhausted(pass.target, row.state, counted.failures, elapsed, budget.maxFailures, budget.minElapsed)
         && pass.retired
      then (counted.(state := Failed), false)
      else (counted, true)
  }

  /** The row after a sequence of passes; a settled row is not listed again. */
  function After(row: Streak, passes: seq<Pass>, budget: Budget): Streak
  {
    if passes == [] then row
    else
      var before := After(row, passes[..|passes| - 1], budget);
      if !Unsettled(before.state) then before
      else Verdict(before.(state := passes[|passes| - 1].state), passes[|passes| - 1], budget).0
  }

  predicate Counts(pass: Pass)
  {
    pass.target.Lifecycle? && pass.state == Uncertain && pass.recorded
  }

  function CountedPasses(passes: seq<Pass>): nat
  {
    if passes == [] then 0 else CountedPasses(passes[..|passes| - 1]) + if Counts(passes[|passes| - 1]) then 1 else 0
  }

  function FirstCounted(passes: seq<Pass>): Option<int>
  {
    if passes == [] then None
    else
      var first := FirstCounted(passes[..|passes| - 1]);
      if first.Some? then first
      else if Counts(passes[|passes| - 1]) then Some(passes[|passes| - 1].countedAt) else None
  }

  /** Pass `n` is counted, the streak up to it has the failures and has lasted long enough. */
  predicate Due(passes: seq<Pass>, n: nat, budget: Budget)
    requires n < |passes|
  {
    Counts(passes[n])
    && CountedPasses(passes[..n + 1]) >= budget.maxFailures
    && passes[n].judgedAt - FirstCounted(passes[..n + 1]).value >= budget.minElapsed
  }

  predicate GivesUpAt(passes: seq<Pass>, n: nat, budget: Budget)
    requires n < |passes|
  {
    Due(passes, n, budget) && passes[n].retired
  }

  const NEW_ROW := Streak(Uncertain, 0, None)

  /** None of these passes found the row settled by somebody else. */
  predicate LeftOpen(passes: seq<Pass>)
  {
    forall i :: 0 <= i < |passes| ==> Unsettled(passes[i].state)
  }

  lemma {:induction false} FirstIsSome(passes: seq<Pass>)
    ensures CountedPasses(passes) > 0 <==> FirstCounted(passes).Some?
  {
    if passes != [] { FirstIsSome(passes[..|passes| - 1]); }
  }

  /** The columns hold the streak, as long as nothing has given up. */
  lemma {:induction false} ColumnsHoldStreak(passes: seq<Pass>, budget: Budget)
    requires LeftOpen(passes)
    requires forall n :: 0 <= n < |passes| ==> !GivesUpAt(passes, n, budget)
    ensures var row := After(NEW_ROW, passes, budget);
      Unsettled(row.state) && row.failures == CountedPasses(passes) && row.startedAt == FirstCounted(passes)
  {
    if passes != [] {
      var last := |passes| - 1;
      var before := passes[..last];
      forall n | 0 <= n < |before|
        ensures !GivesUpAt(before, n, budget)
      {
        assert before[..n + 1] == passes[..n + 1];
        assert !GivesUpAt(passes, n, budget);
      }
      ColumnsHoldStreak(before, budget);
      FirstIsSome(passes);
      FirstIsSome(before);
      assert passes[..last + 1] == passes;
      assert !GivesUpAt(passes, last, budget);
    }
  }

  /** A lifecycle row is given up exactly at the first pass at which its streak is due and the ledger
      takes the failure: not by any earlier pass, and by no pass on another route or state. */
  lemma GivenUpExactlyWhenDue(passes: seq<Pass>, budget: Budget)
    requires LeftOpen(passes)
    ensures After(NEW_ROW, passes, budget).state == Failed <==> exists n :: 0 <= n < |passes| && GivesUpAt(passes, n, budget)
  {
    if n :| 0 <= n < |passes| && GivesUpAt(passes, n, budget) {
      var first := FirstGivingUp(passes, n, budget);
      GivenUpAt(passes, first, budget);
      StaysSettled(NEW_ROW, passes, first + 1, budget);
    } else {
      ColumnsHoldStreak(passes, budget);
    }
  }

  function FirstGivingUp(passes: seq<Pass>, n: nat, budget: Budget): (first: nat)
    requires n < |passes| && GivesUpAt(passes, n, budget)
    ensures first <= n && GivesUpAt(passes, first, budget)
    ensures forall k :: 0 <= k < first ==> !GivesUpAt(passes, k, budget)
  {
    if k :| 0 <= k < n && GivesUpAt(passes, k, budget) then FirstGivingUpBelow(passes, n, budget) else n
  }

  function FirstGivingUpBelow(passes: seq<Pass>, n: nat, budget: Budget): (first: nat)
    requires n < |passes| && exists k :: 0 <= k < n && GivesUpAt(passes, k, budget)
    ensures first < n && GivesUpAt(passes, first, budget)
    ensures forall k :: 0 <= k < first ==> !GivesUpAt(passes, k, budget)
    decreases n
  {
    if exists k :: 0 <= k < n - 1 && GivesUpAt(passes, k, budget) then FirstGivingUpBelow(passes, n - 1, budget) else n - 1
  }

  /** What a pass answers: that the row is still unsettled exactly if it is left dispatched or uncertain. A
      pass that finds the row settled clears its columns, and one that does not count leaves it alone. */
  lemma AnswerIsOpen(row: Streak, pass: Pass, budget: Budget)
    ensures var (after, unsettled) := Verdict(row, pass, budget);
      (unsettled <==> after.state == Dispatched || after.state == Uncertain)
      && (row.state != Dispatched && row.state != Uncertain ==> after == Streak(row.state, 0, None))
      && (row.state == Dispatched || (row.state == Uncertain && !(pass.target.Lifecycle? && pass.recorded)) ==> after == row)
      && (after.state == row.state || (row.state == Uncertain && after.state == Failed && pass.target.Lifecycle? && pass.retired))
  {
  }

  /** At the first such pass, and not before it, the row becomes failed. */
  lemma GivenUpAt(passes: seq<Pass>, n: nat, budget: Budget)
    requires LeftOpen(passes) && n < |passes| && GivesUpAt(passes, n, budget)
    requires forall k :: 0 <= k < n ==> !GivesUpAt(passes, k, budget)
    ensures Unsettled(After(NEW_ROW, passes[..n], budget).state)
    ensures After(NEW_ROW, passes[..n + 1], budget).state == Failed
  {
    forall k | 0 <= k < n
      ensures !GivesUpAt(passes[..n], k, budget)
    {
      assert passes[..n][..k + 1] == passes[..k + 1];
      assert !GivesUpAt(passes, k, budget);
    }
    ColumnsHoldStreak(passes[..n], budget);
    FirstIsSome(passes[..n]);
    FirstIsSome(passes[..n + 1]);
    assert passes[..n + 1][..n] == passes[..n];
  }

  lemma {:induction false} StaysSettled(row: Streak, passes: seq<Pass>, n: nat, budget: Budget)
    requires n <= |passes| && !Unsettled(After(row, passes[..n], budget).state)
    ensures After(row, passes, budget) == After(row, passes[..n], budget)
    decreases |passes|
  {
    if n < |passes| {
      var before := passes[..|passes| - 1];
      assert before[..n] == passes[..n];
      StaysSettled(row, before, n, budget);
    } else {
      assert passes[..n] == passes;
    }
  }

  /** Up to the budget's last failure, and before its time has passed, nothing is given up. */
  lemma NeverEarly(passes: seq<Pass>, budget: Budget)
    requires LeftOpen(passes)
    requires CountedPasses(passes) < budget.maxFailures
             || forall n :: 0 <= n < |passes| && FirstCounted(passes).Some? ==>
                  passes[n].judgedAt - FirstCounted(passes).value < budget.minElapsed
    ensures After(NEW_ROW, passes, budget).state != Failed
  {
    forall n | 0 <= n < |passes|
      ensures !GivesUpAt(passes, n, budget)
    {
      CountsGrow(passes, n + 1);
    }
    GivenUpExactlyWhenDue(passes, budget);
  }

  lemma {:induction false} CountsGrow(passes: seq<Pass>, n: nat)
    requires n <= |passes|
    ensures CountedPasses(passes[..n]) <= CountedPasses(passes)
    ensures FirstCounted(passes[..n]).Some? ==> FirstCounted(passes) == FirstCounted(passes[..n])
    decreases |passes|
  {
    if n < |passes| {
      var before := passes[..|passes| - 1];
      assert before[..n] == passes[..n];
      CountsGrow(before, n);
    } else {
      assert passes[..n] == passes;
    }
  }

  // ---------------------------------------------------------------- the columns in place

  class RecoveryRow {
    var state: OpState
    var failures: nat
    var startedAt: Option<int>

    constructor (state: OpState)
      ensures View() == Streak(state, 0, None)
    {
      this.state, failures, startedAt := state, 0, None;
    }

    function View(): Streak
      reads this
    {
      Streak(state, failures, startedAt)
    }

    method RecordRecoveryAttempt(now: int)
      modifies this`failures, this`startedAt
      ensures View() == Recorded(old(View()), now)
    {
      failures := failures + 1;
      if startedAt.None? { startedAt := Some(now); }
    }

    method SettleVerdict(pass: Pass, budget: Budget) returns (unsettled: bool)
      modifies this
      ensures (View(), unsettled) == Verdict(old(View()), pass, budget)
      ensures unsettled <==> state == Dispatched || state == Uncertain
    {
      if !Unsettled(state) {
        failures, startedAt := 0, None;
        return false;
      }
      if !pass.target.Lifecycle? || state != Uncertain { return true; }
      if !pass.recorded { return true; }
      RecordRecoveryAttempt(pass.countedAt);
      if LifecycleRecoveryExhausted(pass.target, state, failures, pass.judgedAt - startedAt.value, budget.maxFailures, budget.minElapsed) {
        if pass.retired { state := Failed; }
      }
      return Unsettled(state);
    }
  }
}

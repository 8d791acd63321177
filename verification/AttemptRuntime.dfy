/**
 How `AssistantRuntime` ends an assistant attempt: its member sources are completed, given back for
 a bounded number of retries, or superseded by one recovery context when the attempt may have had
 an effect. `returned` counts how often a source was set back to pending. `max` is the number of
 effect-free turns a source may fail, 3 unless configured.
 */
module AttemptRuntime {
  import opened Common
  import opened Runs
  import opened RecoveryDecisions

  type ContextId = nat
  type AttemptId = nat
  type RecoveryId = nat

  datatype Op = Op(sideEffecting: bool, state: OpState)
  datatype AttemptState = InTurn | TurnCompleted | TurnFailed
  datatype Attempt = Attempt(members: seq<ContextId>, state: AttemptState, ops: seq<Op>)
  datatype Source = Pending | Active(attempt: AttemptId) | Completed | Superseded(recovery: RecoveryId)

  datatype Runtime = Runtime(
    max: nat,
    sources: map<ContextId, Source>,
    attempts: seq<Attempt>,
    recoveries: seq<AttemptId>,
    warnings: multiset<ContextId>,
    returned: multiset<ContextId>)

  /** `classifyAttemptEffects`. */
  predicate Effectful(ops: seq<Op>)
  {
    exists i :: 0 <= i < |ops| && ops[i].sideEffecting && (Unsettled(ops[i].state) || ops[i].state == Succeeded)
  }

  function MarkedUncertain(ops: seq<Op>): seq<Op>
  {
    seq(|ops|, i requires 0 <= i < |ops| => if ops[i].state == Dispatched then ops[i].(state := Uncertain) else ops[i])
  }

  /** The failed turns a source has been a member of. */
  function FailedAttempts(attempts: seq<Attempt>, c: ContextId): nat
  {
    if attempts == [] then 0
    else
      var last := attempts[|attempts| - 1];
      FailedAttempts(attempts[..|attempts| - 1], c) + if last.state == TurnFailed && c in last.members then 1 else 0
  }

  predicate Exhausted(r: Runtime, c: ContextId)
  {
    FailedAttempts(r.attempts, c) + 1 >= r.max
  }

  function SetAll(sources: map<ContextId, Source>, members: seq<ContextId>, to: Source): map<ContextId, Source>
  {
    map c | c in sources :: if c in members then to else sources[c]
  }

  function ExhaustedOf(r: Runtime, members: seq<ContextId>): seq<ContextId>
  {
    if members == [] then []
    else ExhaustedOf(r, members[..|members| - 1])
         + if Exhausted(r, members[|members| - 1]) then [members[|members| - 1]] else []
  }

  function RetriedOf(r: Runtime, members: seq<ContextId>): seq<ContextId>
  {
    if members == [] then []
    else RetriedOf(r, members[..|members| - 1])
         + if Exhausted(r, members[|members| - 1]) then [] else [members[|members| - 1]]
  }

  function WithState(r: Runtime, a: AttemptId, state: AttemptState): Runtime
    requires a < |r.attempts|
  {
    r.(attempts := r.attempts[a := r.attempts[a].(state := state)])
  }

  function Complete(r: Runtime, a: AttemptId): Runtime
    requires a < |r.attempts|
  {
    WithState(r, a, TurnCompleted).(sources := SetAll(r.sources, r.attempts[a].members, Completed))
  }

  /** An effect-free failure: sources with attempts left go back, the others are completed with a warning. */
  function GiveBack(r: Runtime, a: AttemptId): Runtime
    requires a < |r.attempts|
  {
    var members := r.attempts[a].members;
    var given, ended := RetriedOf(r, members), ExhaustedOf(r, members);
    WithState(r, a, TurnFailed).(
      sources := SetAll(SetAll(r.sources, given, Pending), ended, Completed),
      returned := r.returned + multiset(given), warnings := r.warnings + multiset(ended))
  }

  /** A failure that may have had an effect: every member is superseded by one new recovery context. */
  function Recover(r: Runtime, a: AttemptId): Runtime
    requires a < |r.attempts|
  {
    WithState(r, a, TurnFailed).(
      sources := SetAll(r.sources, r.attempts[a].members, Superseded(|r.recoveries|)), recoveries := r.recoveries + [a])
  }

  /** `existingRecovery`: the recovery that superseded one of the members, whichever attempt it was of. */
  function KnownRecovery(sources: map<ContextId, Source>, members: seq<ContextId>): Option<RecoveryId>
  {
    if members == [] then None
    else if members[0] in sources && sources[members[0]].Superseded? then Some(sources[members[0]].recovery)
    else KnownRecovery(sources, members[1..])
  }

  /** `handleTerminal`; `ok` is a completed turn that is not a chat turn without its final response. A turn
      that is over already answers with what its members were superseded by. */
  function Terminal(r: Runtime, a: AttemptId, ok: bool): (Runtime, Option<RecoveryId>)
  {
    if a >= |r.attempts| then (r, None)
    else if r.attempts[a].state != InTurn then (r, KnownRecovery(r.sources, r.attempts[a].members))
    else
      var marked := r.(attempts := r.attempts[a := r.attempts[a].(ops := MarkedUncertain(r.attempts[a].ops))]);
      if ok then (Complete(marked, a), None)
      else if !Effectful(marked.attempts[a].ops) then (GiveBack(marked, a), None)
      else (Recover(marked, a), Some(|r.recoveries|))
  }

  // ---------------------------------------------------------------- runs

  datatype Event =
    | SourceCame(c: ContextId)
    | TurnOpened(c: ContextId)
    | SourceJoined(a: AttemptId, c: ContextId)
    | OpPrepared(a: AttemptId, sideEffecting: bool)
    | OpMoved(a: AttemptId, op: nat, state: OpState)
    | Ended(a: AttemptId, ok: bool)

  predicate Enabled(r: Runtime, ev: Event)
  {
    match ev
    case SourceCame(c) => c !in r.sources
    case TurnOpened(c) => c in r.sources && r.sources[c] == Pending
    case SourceJoined(a, c) => a < |r.attempts| && r.attempts[a].state == InTurn && c in r.sources && r.sources[c] == Pending
    case OpPrepared(a, _) => a < |r.attempts| && r.attempts[a].state == InTurn
    case OpMoved(a, op, state) =>
      a < |r.attempts| && op < |r.attempts[a].ops| && (state == Dispatched ==> r.attempts[a].state == InTurn)
    case Ended(_, _) => true
  }

  function Next(r: Runtime, ev: Event): Runtime
    requires Enabled(r, ev)
  {
    match ev
    case SourceCame(c) => r.(sources := r.sources[c := Pending])
    case TurnOpened(c) => r.(sources := r.sources[c := Active(|r.attempts|)], attempts := r.attempts + [Attempt([c], InTurn, [])])
    case SourceJoined(a, c) =>
      r.(sources := r.sources[c := Active(a)], attempts := r.attempts[a := r.attempts[a].(members := r.attempts[a].members + [c])])
    case OpPrepared(a, sideEffecting) =>
      r.(attempts := r.attempts[a := r.attempts[a].(ops := r.attempts[a].ops + [Op(sideEffecting, Prepared)])])
    case OpMoved(a, op, state) =>
      r.(attempts := r.attempts[a := r.attempts[a].(ops := r.attempts[a].ops[op := r.attempts[a].ops[op].(state := state)])])
    case Ended(a, ok) => Terminal(r, a, ok).0
  }

  ghost predicate Step(r: Runtime, ev: Event, s: Runtime)
  {
    Enabled(r, ev) && s == Next(r, ev)
  }

  ghost predicate Init(r: Runtime)
  {
    r == Runtime(r.max, map[], [], [], multiset{}, multiset{}) && r.max >= 1
  }

  // ---------------------------------------------------------------- the invariant

  predicate Distinct(members: seq<ContextId>)
  {
    forall i, j :: 0 <= i < j < |members| ==> members[i] != members[j]
  }

  /** A source is active exactly in the one unfinished attempt that has it as a member. */
  ghost predicate Membership(r: Runtime)
  {
    (forall a :: 0 <= a < |r.attempts| ==> Distinct(r.attempts[a].members))
    && (forall a, c :: 0 <= a < |r.attempts| && c in r.attempts[a].members ==> c in r.sources)
    && (forall a, c :: 0 <= a < |r.attempts| && r.attempts[a].state == InTurn && c in r.attempts[a].members ==> r.sources[c] == Active(a))
    && (forall c :: c in r.sources && r.sources[c].Active? ==>
         r.sources[c].attempt < |r.attempts| && r.attempts[r.sources[c].attempt].state == InTurn && c in r.attempts[r.sources[c].attempt].members)
  }

  /** A source still to be worked on has been given back after each of its failed turns. */
  ghost predicate Budget(r: Runtime)
  {
    r.max >= 1
    && forall c: ContextId ::
         r.returned[c] < r.max && r.warnings[c] <= 1
         && (r.warnings[c] == 1 ==> c in r.sources && r.sources[c] == Completed)
         && (c !in r.sources ==> FailedAttempts(r.attempts, c) == r.returned[c] == 0)
         && (c in r.sources && (r.sources[c] == Pending || r.sources[c].Active?) ==> FailedAttempts(r.attempts, c) == r.returned[c])
  }

  /** One recovery context per attempt, and the members of a recovered attempt stay superseded by it. */
  ghost predicate Recoveries(r: Runtime)
  {
    (forall i, j :: 0 <= i < j < |r.recoveries| ==> r.recoveries[i] != r.recoveries[j])
    && (forall i :: 0 <= i < |r.recoveries| ==> r.recoveries[i] < |r.attempts| && r.attempts[r.recoveries[i]].state == TurnFailed)
    && (forall i, c :: 0 <= i < |r.recoveries| && c in r.attempts[r.recoveries[i]].members ==> c in r.sources && r.sources[c] == Superseded(i))
  }

  ghost predicate Inv(r: Runtime)
  {
    Membership(r) && Budget(r) && Recoveries(r)
  }

  lemma {:induction false} FailedAfterAppend(attempts: seq<Attempt>, added: Attempt, c: ContextId)
    requires added.state != TurnFailed
    ensures FailedAttempts(attempts + [added], c) == FailedAttempts(attempts, c)
  {
    assert (attempts + [added])[..|attempts|] == attempts;
  }

  /** Changing one attempt changes the count by what that attempt adds. */
  lemma {:induction false} FailedAfterUpdate(attempts: seq<Attempt>, a: AttemptId, next: Attempt, c: ContextId)
    requires a < |attempts|
    ensures FailedAttempts(attempts[a := next], c) == FailedAttempts(attempts, c)
      - (if attempts[a].state == TurnFailed && c in attempts[a].members then 1 else 0)
      + (if next.state == TurnFailed && c in next.members then 1 else 0)
  {
    var last := |attempts| - 1;
    if a == last {
      assert attempts[a := next][..last] == attempts[..last];
    } else {
      FailedAfterUpdate(attempts[..last], a, next, c);
      assert attempts[a := next][..last] == attempts[..last][a := next];
    }
  }

  lemma {:induction false} SplitMember(r: Runtime, members: seq<ContextId>, c: ContextId)
    ensures c in RetriedOf(r, members) <==> c in members && !Exhausted(r, c)
    ensures c in ExhaustedOf(r, members) <==> c in members && Exhausted(r, c)
  {
    if members != [] {
      var last := |members| - 1;
      SplitMember(r, members[..last], c);
      assert members == members[..last] + [members[last]];
    }
  }

  /** Each member is counted once, on one side. */
  lemma {:induction false} SplitCounts(r: Runtime, members: seq<ContextId>, c: ContextId)
    requires Distinct(members)
    ensures multiset(RetriedOf(r, members))[c] == if c in members && !Exhausted(r, c) then 1 else 0
    ensures multiset(ExhaustedOf(r, members))[c] == if c in members && Exhausted(r, c) then 1 else 0
  {
    if members != [] {
      var last := |members| - 1;
      SplitCounts(r, members[..last], c);
      assert members == members[..last] + [members[last]];
      assert members[last] !in members[..last];
    }
  }

  // ---------------------------------------------------------------- every step keeps it

  lemma OpsKeepInv(r: Runtime, a: AttemptId, ops: seq<Op>)
    requires Inv(r) && a < |r.attempts|
    ensures Inv(r.(attempts := r.attempts[a := r.attempts[a].(ops := ops)]))
  {
    forall c: ContextId
      ensures FailedAttempts(r.attempts[a := r.attempts[a].(ops := ops)], c) == FailedAttempts(r.attempts, c)
    {
      FailedAfterUpdate(r.attempts, a, r.attempts[a].(ops := ops), c);
    }
  }

  lemma CameKeepsInv(r: Runtime, c: ContextId)
    requires Inv(r) && c !in r.sources
    ensures Inv(Next(r, SourceCame(c)))
  {
  }

  lemma OpenCounts(r: Runtime, c: ContextId)
    requires Inv(r) && Enabled(r, TurnOpened(c))
    ensures Budget(Next(r, TurnOpened(c)))
  {
    forall d: ContextId
      ensures FailedAttempts(r.attempts + [Attempt([c], InTurn, [])], d) == FailedAttempts(r.attempts, d)
    {
      FailedAfterAppend(r.attempts, Attempt([c], InTurn, []), d);
    }
  }

  lemma OpenMembership(r: Runtime, c: ContextId)
    requires Inv(r) && Enabled(r, TurnOpened(c))
    ensures Membership(Next(r, TurnOpened(c))) && Recoveries(Next(r, TurnOpened(c)))
  {
  }

  lemma OpenKeepsInv(r: Runtime, c: ContextId)
    requires Inv(r) && Enabled(r, TurnOpened(c))
    ensures Inv(Next(r, TurnOpened(c)))
  {
    OpenCounts(r, c);
    OpenMembership(r, c);
  }

  lemma JoinCounts(r: Runtime, a: AttemptId, c: ContextId)
    requires Inv(r) && Enabled(r, SourceJoined(a, c))
    ensures Budget(Next(r, SourceJoined(a, c)))
  {
    var joined := r.attempts[a].(members := r.attempts[a].members + [c]);
    forall d: ContextId
      ensures FailedAttempts(r.attempts[a := joined], d) == FailedAttempts(r.attempts, d)
    {
      FailedAfterUpdate(r.attempts, a, joined, d);
    }
  }

  lemma JoinMembership(r: Runtime, a: AttemptId, c: ContextId)
    requires Inv(r) && Enabled(r, SourceJoined(a, c))
    ensures Membership(Next(r, SourceJoined(a, c)))
  {
    assert c !in r.attempts[a].members;
  }

  lemma JoinRecoveries(r: Runtime, a: AttemptId, c: ContextId)
    requires Inv(r) && Enabled(r, SourceJoined(a, c))
    ensures Recoveries(Next(r, SourceJoined(a, c)))
  {
  }

  lemma JoinKeepsInv(r: Runtime, a: AttemptId, c: ContextId)
    requires Inv(r) && Enabled(r, SourceJoined(a, c))
    ensures Inv(Next(r, SourceJoined(a, c)))
  {
    JoinCounts(r, a, c);
    JoinMembership(r, a, c);
    JoinRecoveries(r, a, c);
  }

  /** What the three ways of ending an attempt do to the sources: its members leave it. */
  ghost predicate Leaves(r: Runtime, a: AttemptId, sources: map<ContextId, Source>)
  {
    a < |r.attempts| && sources.Keys == r.sources.Keys
    && forall c :: c in sources ==> if c in r.attempts[a].members then !sources[c].Active? else sources[c] == r.sources[c]
  }

  lemma EndKeepsMembership(r: Runtime, a: AttemptId, s: Runtime)
    requires Membership(r) && a < |r.attempts| && r.attempts[a].state == InTurn && Leaves(r, a, s.sources)
    requires |s.attempts| == |r.attempts| && s.attempts == r.attempts[a := r.attempts[a].(state := s.attempts[a].state)] && s.attempts[a].state != InTurn
    ensures Membership(s)
  {
    assert forall c :: c in r.attempts[a].members ==> r.sources[c] == Active(a);
    forall b, c | 0 <= b < |s.attempts| && s.attempts[b].state == InTurn && c in s.attempts[b].members
      ensures s.sources[c] == Active(b)
    {
      assert b != a && r.sources[c] == Active(b);
    }
  }

  lemma EndKeepsRecoveries(r: Runtime, a: AttemptId, s: Runtime)
    requires Inv(r) && a < |r.attempts| && r.attempts[a].state == InTurn && Leaves(r, a, s.sources)
    requires |s.attempts| == |r.attempts| && s.attempts == r.attempts[a := r.attempts[a].(state := s.attempts[a].state)] && s.recoveries == r.recoveries
    ensures Recoveries(s)
  {
    forall i, c | 0 <= i < |s.recoveries| && c in s.attempts[s.recoveries[i]].members
      ensures c in s.sources && s.sources[c] == Superseded(i)
    {
      assert r.recoveries[i] != a && r.sources[c] == Superseded(i);
      assert c !in r.attempts[a].members;
    }
  }

  lemma CompleteKeepsInv(r: Runtime, a: AttemptId)
    requires Inv(r) && a < |r.attempts| && r.attempts[a].state == InTurn
    ensures Inv(Complete(r, a))
  {
    EndKeepsMembership(r, a, Complete(r, a));
    EndKeepsRecoveries(r, a, Complete(r, a));
    forall d: ContextId
      ensures FailedAttempts(Complete(r, a).attempts, d) == FailedAttempts(r.attempts, d)
    {
      FailedAfterUpdate(r.attempts, a, r.attempts[a].(state := TurnCompleted), d);
    }
  }

  lemma RecoverKeepsBudget(r: Runtime, a: AttemptId)
    requires Inv(r) && a < |r.attempts| && r.attempts[a].state == InTurn
    ensures Budget(Recover(r, a))
  {
    forall d: ContextId
      ensures FailedAttempts(Recover(r, a).attempts, d) == FailedAttempts(r.attempts, d) + if d in r.attempts[a].members then 1 else 0
    {
      FailedAfterUpdate(r.attempts, a, r.attempts[a].(state := TurnFailed), d);
    }
    forall d | d in r.attempts[a].members
      ensures d in r.sources && r.sources[d] == Active(a)
    {
    }
  }

  lemma RecoverKeepsInv(r: Runtime, a: AttemptId)
    requires Inv(r) && a < |r.attempts| && r.attempts[a].state == InTurn
    ensures Inv(Recover(r, a))
  {
    EndKeepsMembership(r, a, Recover(r, a));
    RecoverKeepsBudget(r, a);
    RecoverKeepsRecoveries(r, a);
  }

  lemma OneMoreRecovery(r: Runtime, a: AttemptId)
    requires Recoveries(r) && a < |r.attempts| && r.attempts[a].state == TurnFailed && a !in r.recoveries
    requires forall c :: c in r.attempts[a].members ==> c in r.sources && r.sources[c] == Superseded(|r.recoveries|)
    ensures Recoveries(r.(recoveries := r.recoveries + [a]))
  {
  }

  lemma RecoverKeepsRecoveries(r: Runtime, a: AttemptId)
    requires Inv(r) && a < |r.attempts| && r.attempts[a].state == InTurn
    ensures Recoveries(Recover(r, a))
  {
    var s := Recover(r, a);
    var before := s.(recoveries := r.recoveries);
    EndKeepsRecoveries(r, a, before);
    assert forall c :: c in s.attempts[a].members ==> c in s.sources && s.sources[c] == Superseded(|r.recoveries|);
    OneMoreRecovery(before, a);
  }

  lemma GiveBackKeepsBudget(r: Runtime, a: AttemptId, c: ContextId)
    requires Inv(r) && a < |r.attempts| && r.attempts[a].state == InTurn
    ensures var s := GiveBack(r, a);
      FailedAttempts(s.attempts, c) == FailedAttempts(r.attempts, c) + (if c in r.attempts[a].members then 1 else 0)
      && (c in r.sources <==> c in s.sources)
    ensures c in r.attempts[a].members ==> c in r.sources
    ensures c in r.attempts[a].members && Exhausted(r, c) ==>
      var s := GiveBack(r, a);
      s.sources[c] == Completed && s.returned[c] == r.returned[c] && s.warnings[c] == r.warnings[c] + 1
    ensures c in r.attempts[a].members && !Exhausted(r, c) ==>
      var s := GiveBack(r, a);
      s.sources[c] == Pending && s.returned[c] == r.returned[c] + 1 && s.warnings[c] == r.warnings[c]
    ensures c !in r.attempts[a].members ==>
      var s := GiveBack(r, a);
      (c in r.sources ==> s.sources[c] == r.sources[c]) && s.returned[c] == r.returned[c] && s.warnings[c] == r.warnings[c]
  {
    SplitMember(r, r.attempts[a].members, c);
    SplitCounts(r, r.attempts[a].members, c);
    FailedAfterUpdate(r.attempts, a, r.attempts[a].(state := TurnFailed), c);
  }

  lemma GiveBackKeepsInv(r: Runtime, a: AttemptId)
    requires Inv(r) && a < |r.attempts| && r.attempts[a].state == InTurn
    ensures Inv(GiveBack(r, a))
  {
    var s := GiveBack(r, a);
    forall c
      ensures c in RetriedOf(r, r.attempts[a].members) || c in ExhaustedOf(r, r.attempts[a].members) <==> c in r.attempts[a].members
    {
      SplitMember(r, r.attempts[a].members, c);
    }
    EndKeepsMembership(r, a, s);
    EndKeepsRecoveries(r, a, s);
    GiveBackBudget(r, a);
  }

  lemma GiveBackBudget(r: Runtime, a: AttemptId)
    requires Inv(r) && a < |r.attempts| && r.attempts[a].state == InTurn
    ensures Budget(GiveBack(r, a))
  {
    var s := GiveBack(r, a);
    forall c: ContextId
      ensures s.returned[c] < s.max && s.warnings[c] <= 1
      ensures s.warnings[c] == 1 ==> c in s.sources && s.sources[c] == Completed
      ensures c !in s.sources ==> FailedAttempts(s.attempts, c) == s.returned[c] == 0
      ensures c in s.sources && (s.sources[c] == Pending || s.sources[c].Active?) ==> FailedAttempts(s.attempts, c) == s.returned[c]
    {
      GiveBackKeepsBudget(r, a, c);
      assert c in r.attempts[a].members ==> r.sources[c] == Active(a);
    }
  }

  lemma NextKeepsInv(r: Runtime, ev: Event)
    requires Inv(r) && Enabled(r, ev)
    ensures Inv(Next(r, ev))
  {
    match ev
    case SourceCame(c) => CameKeepsInv(r, c);
    case TurnOpened(c) => OpenKeepsInv(r, c);
    case SourceJoined(a, c) => JoinKeepsInv(r, a, c);
    case OpPrepared(a, sideEffecting) => OpsKeepInv(r, a, r.attempts[a].ops + [Op(sideEffecting, Prepared)]);
    case OpMoved(a, op, state) => OpsKeepInv(r, a, r.attempts[a].ops[op := r.attempts[a].ops[op].(state := state)]);
    case Ended(a, ok) => EndKeepsInv(r, a, ok);
  }

  lemma EndKeepsInv(r: Runtime, a: AttemptId, ok: bool)
    requires Inv(r)
    ensures Inv(Terminal(r, a, ok).0)
  {
    if a < |r.attempts| && r.attempts[a].state == InTurn {
      OpsKeepInv(r, a, MarkedUncertain(r.attempts[a].ops));
      var marked := r.(attempts := r.attempts[a := r.attempts[a].(ops := MarkedUncertain(r.attempts[a].ops))]);
      if ok { CompleteKeepsInv(marked, a); }
      else if Effectful(marked.attempts[a].ops) { RecoverKeepsInv(marked, a); }
      else { GiveBackKeepsInv(marked, a); }
    }
  }

  lemma StepKeepsInv()
    ensures forall r :: Init(r) ==> Inv(r)
    ensures forall r, ev, s :: Inv(r) && Step(r, ev, s) ==> Inv(s)
  {
    forall r, ev, s | Inv(r) && Step(r, ev, s)
      ensures Inv(s)
    {
      NextKeepsInv(r, ev);
    }
  }

  lemma TraceKeepsInv(states: seq<Runtime>, events: seq<Event>, i: nat)
    requires IsRun(Init, Step, states, events) && i < |states|
    ensures Inv(states[i])
  {
    StepKeepsInv();
    HoldsThroughout(Init, Step, Inv, states, events, i);
  }

  // ---------------------------------------------------------------- what runs guarantee

  /** Effect-free failures give a source back at most `max - 1` times, and it gets at most one warning,
      with which it is over. */
  lemma RetriesAreBounded(states: seq<Runtime>, events: seq<Event>, i: nat, c: ContextId)
    requires IsRun(Init, Step, states, events) && i < |states|
    ensures states[i].returned[c] <= states[i].max - 1 && states[i].warnings[c] <= 1
    ensures states[i].warnings[c] == 1 ==> c in states[i].sources && states[i].sources[c] == Completed
  {
    TraceKeepsInv(states, events, i);
  }

  /** The failure of an attempt without effects ends a member with a warning exactly at its `max`-th
      failed turn; before that the member is pending again. */
  lemma EffectFreeFailure(r: Runtime, a: AttemptId, c: ContextId)
    requires Inv(r) && a < |r.attempts| && r.attempts[a].state == InTurn && c in r.attempts[a].members
    requires forall op <- r.attempts[a].ops :: op.sideEffecting ==>
      op.state != Dispatched && op.state != Uncertain && op.state != Succeeded
    ensures var s := Terminal(r, a, false).0;
      FailedAttempts(s.attempts, c) == FailedAttempts(r.attempts, c) + 1
      && if FailedAttempts(s.attempts, c) < r.max
         then s.sources[c] == Pending && s.returned[c] == r.returned[c] + 1 && s.warnings[c] == r.warnings[c]
         else s.sources[c] == Completed && s.returned[c] == r.returned[c] && s.warnings[c] == r.warnings[c] + 1
  {
    var marked := r.(attempts := r.attempts[a := r.attempts[a].(ops := MarkedUncertain(r.attempts[a].ops))]);
    NoEffectMarked(r.attempts[a].ops);
    FailedAfterUpdate(r.attempts, a, marked.attempts[a], c);
    FailedAfterUpdate(marked.attempts, a, marked.attempts[a].(state := TurnFailed), c);
    SplitMember(marked, marked.attempts[a].members, c);
    SplitCounts(marked, marked.attempts[a].members, c);
  }

  lemma NoEffectMarked(ops: seq<Op>)
    ensures Effectful(MarkedUncertain(ops)) <==> Effectful(ops)
  {
    var marked := MarkedUncertain(ops);
    if i :| 0 <= i < |ops| && ops[i].sideEffecting && (Unsettled(ops[i].state) || ops[i].state == Succeeded) {
      assert marked[i].sideEffecting && (Unsettled(marked[i].state) || marked[i].state == Succeeded);
    }
  }

  /** No side-effecting operation of an attempt has been sent, is in doubt, or has succeeded. */
  predicate NothingDone(ops: seq<Op>)
  {
    forall op <- ops :: op.sideEffecting ==> op.state != Dispatched && op.state != Uncertain && op.state != Succeeded
  }

  /** The whole outcome of a turn that fails, for each source: a member goes back, or is completed with the
      warning at its last retry, exactly if nothing was done, and is superseded by the one new recovery
      otherwise; other sources, and every other count, stay. */
  lemma FailedTurn(r: Runtime, a: AttemptId, c: ContextId)
    requires Inv(r) && a < |r.attempts| && r.attempts[a].state == InTurn && c in r.sources
    ensures var (s, recovery) := Terminal(r, a, false);
      c in s.sources
      && if c !in r.attempts[a].members then
        s.sources[c] == r.sources[c] && s.returned[c] == r.returned[c] && s.warnings[c] == r.warnings[c]
      else if !NothingDone(r.attempts[a].ops) then
        s.sources[c] == Superseded(|r.recoveries|) && recovery == Some(|r.recoveries|) && s.recoveries == r.recoveries + [a]
        && s.returned[c] == r.returned[c] && s.warnings[c] == r.warnings[c]
      else
        recovery.None? && s.recoveries == r.recoveries
        && if r.returned[c] + 1 < r.max
           then s.sources[c] == Pending && s.returned[c] == r.returned[c] + 1 && s.warnings[c] == r.warnings[c]
           else s.sources[c] == Completed && s.returned[c] == r.returned[c] && s.warnings[c] == r.warnings[c] + 1
  {
    NothingDoneIff(r.attempts[a].ops);
    if c !in r.attempts[a].members {
      UntouchedByEnd(r, a, false, c);
    } else if NothingDone(r.attempts[a].ops) {
      EffectFreeFailure(r, a, c);
      FailedOnceMore(r, a, c);
    }
  }

  lemma FailedOnceMore(r: Runtime, a: AttemptId, c: ContextId)
    requires Inv(r) && a < |r.attempts| && r.attempts[a].state == InTurn && c in r.attempts[a].members
    ensures FailedAttempts(r.attempts, c) == r.returned[c] && c in r.sources
  {
    assert r.sources[c] == Active(a);
  }

  lemma NothingDoneIff(ops: seq<Op>)
    ensures NothingDone(ops) <==> !Effectful(MarkedUncertain(ops))
  {
    NoEffectMarked(ops);
  }

  lemma UntouchedByEnd(r: Runtime, a: AttemptId, ok: bool, c: ContextId)
    requires Inv(r) && a < |r.attempts| && r.attempts[a].state == InTurn && c in r.sources && c !in r.attempts[a].members
    ensures var s := Terminal(r, a, ok).0;
      c in s.sources && s.sources[c] == r.sources[c] && s.returned[c] == r.returned[c] && s.warnings[c] == r.warnings[c]
  {
    var marked := r.(attempts := r.attempts[a := r.attempts[a].(ops := MarkedUncertain(r.attempts[a].ops))]);
    OpsKeepInv(r, a, MarkedUncertain(r.attempts[a].ops));
    GiveBackKeepsBudget(marked, a, c);
  }

  /** A turn that completes completes its members and nothing else; however a turn ends, what had been sent
      for its attempt is in doubt from then on. */
  lemma CompletedTurn(r: Runtime, a: AttemptId, ok: bool)
    requires Inv(r) && a < |r.attempts| && r.attempts[a].state == InTurn
    ensures var (s, recovery) := Terminal(r, a, true);
      recovery.None? && s.recoveries == r.recoveries && s.returned == r.returned && s.warnings == r.warnings
      && s.sources.Keys == r.sources.Keys
      && forall c :: c in s.sources ==> s.sources[c] == if c in r.attempts[a].members then Completed else r.sources[c]
    ensures var s := Terminal(r, a, ok).0;
      |s.attempts| == |r.attempts| && s.attempts[a].state == (if ok then TurnCompleted else TurnFailed)
      && |s.attempts[a].ops| == |r.attempts[a].ops|
      && forall i :: 0 <= i < |r.attempts[a].ops| ==>
        s.attempts[a].ops[i] == if r.attempts[a].ops[i].state == Dispatched then r.attempts[a].ops[i].(state := Uncertain) else r.attempts[a].ops[i]
  {
  }

  /** Over every run: a source is given back exactly when a turn of it fails in which nothing was done, and
      it has been given back fewer than `max - 1` times before. */
  lemma GivenBackIff(states: seq<Runtime>, events: seq<Event>, i: nat, c: ContextId)
    requires IsRun(Init, Step, states, events) && i < |events| && c in states[i].sources
    ensures states[i + 1].returned[c] != states[i].returned[c] <==>
      events[i].Ended? && !events[i].ok && events[i].a < |states[i].attempts|
      && states[i].attempts[events[i].a].state == InTurn && c in states[i].attempts[events[i].a].members
      && NothingDone(states[i].attempts[events[i].a].ops) && states[i].returned[c] + 1 < states[i].max
    ensures states[i].sources[c] != Pending && c in states[i + 1].sources && states[i + 1].sources[c] == Pending ==>
      states[i + 1].returned[c] == states[i].returned[c] + 1
  {
    TraceKeepsInv(states, events, i);
    assert Step(states[i], events[i], states[i + 1]);
    var r := states[i];
    if events[i].Ended? && events[i].a < |r.attempts| && r.attempts[events[i].a].state == InTurn {
      if events[i].ok { CompletedTurn(r, events[i].a, true); } else { FailedTurn(r, events[i].a, c); }
    }
  }

  predicate StaysSuperseded(r: Runtime, c: ContextId, recovery: RecoveryId, a: AttemptId)
  {
    recovery < |r.recoveries| && r.recoveries[recovery] == a && a < |r.attempts| && c in r.attempts[a].members
  }

  lemma SupersededStays(r: Runtime, ev: Event, c: ContextId, recovery: RecoveryId, a: AttemptId)
    requires Inv(r) && Enabled(r, ev) && StaysSuperseded(r, c, recovery, a)
    ensures StaysSuperseded(Next(r, ev), c, recovery, a)
  {
  }

  /** Once an attempt that may have had an effect fails, its members are superseded by the one recovery
      context of that attempt, for good: none of them is ever pending again. */
  lemma EffectfulFailureIsFinal(states: seq<Runtime>, events: seq<Event>, i: nat, j: nat, a: AttemptId, c: ContextId)
    requires IsRun(Init, Step, states, events) && i < |events| && i < j < |states|
    requires events[i] == Ended(a, false) && a < |states[i].attempts| && states[i].attempts[a].state == InTurn
    requires c in states[i].attempts[a].members
    requires exists op <- states[i].attempts[a].ops ::
      op.sideEffecting && (op.state == Dispatched || op.state == Uncertain || op.state == Succeeded)
    ensures var recovery := |states[i].recoveries|;
      c in states[j].sources && states[j].sources[c] == Superseded(recovery)
      && recovery < |states[j].recoveries| && states[j].recoveries[recovery] == a
      && forall k :: 0 <= k < |states[j].recoveries| && states[j].recoveries[k] == a ==> k == recovery
  {
    TraceKeepsInv(states, events, i);
    TraceKeepsInv(states, events, j);
    StepKeepsInv();
    var recovery := |states[i].recoveries|;
    assert Step(states[i], events[i], states[i + 1]);
    NoEffectMarked(states[i].attempts[a].ops);
    assert StaysSuperseded(states[i + 1], c, recovery, a);
    forall r, ev, s | Inv(r) && StaysSuperseded(r, c, recovery, a) && Step(r, ev, s)
      ensures StaysSuperseded(s, c, recovery, a)
    {
      SupersededStays(r, ev, c, recovery, a);
    }
    HoldsFrom(Init, Step, Inv, (ev: Event) => true, (r: Runtime) => StaysSuperseded(r, c, recovery, a), states, events, i + 1, j);
    assert StaysSuperseded(states[j], c, recovery, a);
  }

  // ---------------------------------------------------------------- a terminal that comes again

  /** Attempts have members, and a superseded source is a member of the attempt its recovery is of. */
  ghost predicate Explained(r: Runtime)
  {
    (forall a :: 0 <= a < |r.attempts| ==> r.attempts[a].members != [])
    && forall c :: c in r.sources && r.sources[c].Superseded? ==>
         r.sources[c].recovery < |r.recoveries| && r.recoveries[r.sources[c].recovery] < |r.attempts|
         && c in r.attempts[r.recoveries[r.sources[c].recovery]].members
  }

  /** How an ended attempt leaves the rows: only its members' sources move, and those that are superseded
      are so by the one recovery that is new. */
  ghost predicate EndsAs(r: Runtime, a: AttemptId, s: Runtime)
  {
    && a < |r.attempts| == |s.attempts| && s.attempts[a].members == r.attempts[a].members
    && (forall b :: 0 <= b < |r.attempts| && b != a ==> s.attempts[b] == r.attempts[b])
    && (s.recoveries == r.recoveries || s.recoveries == r.recoveries + [a])
    && s.sources.Keys == r.sources.Keys
    && forall c :: c in s.sources ==>
         if c !in r.attempts[a].members then s.sources[c] == r.sources[c]
         else s.sources[c].Superseded? ==> s.sources[c].recovery == |r.recoveries| < |s.recoveries|
  }

  lemma EndsAsExplained(r: Runtime, a: AttemptId, s: Runtime)
    requires Explained(r) && EndsAs(r, a, s)
    ensures Explained(s)
  {
    forall c | c in s.sources && s.sources[c].Superseded?
      ensures s.sources[c].recovery < |s.recoveries| && s.recoveries[s.sources[c].recovery] < |s.attempts|
      ensures c in s.attempts[s.recoveries[s.sources[c].recovery]].members
    {
      if c in r.attempts[a].members {
        assert s.recoveries[|r.recoveries|] == a;
      } else {
        var k := r.sources[c].recovery;
        assert s.recoveries[k] == r.recoveries[k];
      }
    }
  }

  lemma GiveBackEnds(r: Runtime, a: AttemptId)
    requires a < |r.attempts|
    ensures EndsAs(r, a, GiveBack(r, a))
  {
    forall c: ContextId
      ensures c in RetriedOf(r, r.attempts[a].members) || c in ExhaustedOf(r, r.attempts[a].members) <==> c in r.attempts[a].members
    {
      SplitMember(r, r.attempts[a].members, c);
    }
  }

  lemma OthersEnd(r: Runtime, a: AttemptId)
    requires a < |r.attempts|
    ensures EndsAs(r, a, Complete(r, a)) && EndsAs(r, a, Recover(r, a))
  {
  }

  lemma TerminalEnds(r: Runtime, a: AttemptId, ok: bool, marked: Runtime)
    requires a < |r.attempts| && r.attempts[a].state == InTurn
    requires marked == r.(attempts := r.attempts[a := r.attempts[a].(ops := MarkedUncertain(r.attempts[a].ops))])
    ensures EndsAs(marked, a, Terminal(r, a, ok).0)
  {
    GiveBackEnds(marked, a);
    OthersEnd(marked, a);
  }

  lemma EndExplained(r: Runtime, a: AttemptId, ok: bool)
    requires Explained(r)
    ensures Explained(Terminal(r, a, ok).0)
  {
    if a < |r.attempts| && r.attempts[a].state == InTurn {
      var marked := r.(attempts := r.attempts[a := r.attempts[a].(ops := MarkedUncertain(r.attempts[a].ops))]);
      OpsExplained(r, a, MarkedUncertain(r.attempts[a].ops));
      TerminalEnds(r, a, ok, marked);
      EndsAsExplained(marked, a, Terminal(r, a, ok).0);
    }
  }

  lemma OpenExplained(r: Runtime, c: ContextId)
    requires Explained(r) && Enabled(r, TurnOpened(c))
    ensures Explained(Next(r, TurnOpened(c)))
  {
  }

  lemma JoinExplained(r: Runtime, a: AttemptId, c: ContextId)
    requires Explained(r) && Enabled(r, SourceJoined(a, c))
    ensures Explained(Next(r, SourceJoined(a, c)))
  {
  }

  lemma OpsExplained(r: Runtime, a: AttemptId, ops: seq<Op>)
    requires Explained(r) && a < |r.attempts|
    ensures Explained(r.(attempts := r.attempts[a := r.attempts[a].(ops := ops)]))
  {
  }

  lemma NextExplained(r: Runtime, ev: Event)
    requires Explained(r) && Enabled(r, ev)
    ensures Explained(Next(r, ev))
  {
    match ev
    case SourceCame(c) =>
    case TurnOpened(c) => OpenExplained(r, c);
    case SourceJoined(a, c) => JoinExplained(r, a, c);
    case OpPrepared(a, sideEffecting) => OpsExplained(r, a, r.attempts[a].ops + [Op(sideEffecting, Prepared)]);
    case OpMoved(a, op, state) => OpsExplained(r, a, r.attempts[a].ops[op := r.attempts[a].ops[op].(state := state)]);
    case Ended(a, ok) => EndExplained(r, a, ok);
  }

  lemma TraceIsExplained(states: seq<Runtime>, events: seq<Event>, i: nat)
    requires IsRun(Init, Step, states, events) && i < |states|
    ensures Inv(states[i]) && Explained(states[i])
  {
    forall r, ev, s | (Inv(r) && Explained(r)) && Step(r, ev, s)
      ensures Inv(s) && Explained(s)
    {
      NextKeepsInv(r, ev);
      NextExplained(r, ev);
    }
    StepKeepsInv();
    HoldsThroughout(Init, Step, (r: Runtime) => Inv(r) && Explained(r), states, events, i);
  }

  lemma {:induction false} KnownFacts(sources: map<ContextId, Source>, members: seq<ContextId>)
    ensures var known := KnownRecovery(sources, members);
      if known.None? then forall c :: c in members && c in sources ==> !sources[c].Superseded?
      else exists c :: c in members && c in sources && sources[c] == Superseded(known.value)
  {
    if members != [] {
      KnownFacts(sources, members[1..]);
      assert members == [members[0]] + members[1..];
    }
  }

  predicate Shares(r: Runtime, a: AttemptId, b: AttemptId)
    requires a < |r.attempts| && b < |r.attempts|
  {
    exists c :: c in r.attempts[a].members && c in r.attempts[b].members
  }

  /** The answer of an attempt that is over, told from the recoveries alone: none exactly if no recovered
      attempt shares a member with it, and otherwise the recovery of one that does. */
  lemma KnownIsShared(r: Runtime, a: AttemptId)
    requires Inv(r) && Explained(r) && a < |r.attempts|
    ensures var known := KnownRecovery(r.sources, r.attempts[a].members);
      if known.None? then forall k :: 0 <= k < |r.recoveries| ==> !Shares(r, a, r.recoveries[k])
      else known.value < |r.recoveries| && Shares(r, a, r.recoveries[known.value])
  {
    KnownFacts(r.sources, r.attempts[a].members);
    var known := KnownRecovery(r.sources, r.attempts[a].members);
    if known.Some? {
      var c :| c in r.attempts[a].members && c in r.sources && r.sources[c] == Superseded(known.value);
      assert Shares(r, a, r.recoveries[known.value]);
    } else {
      assert forall k, c :: 0 <= k < |r.recoveries| && c in r.attempts[r.recoveries[k]].members ==> r.sources[c].Superseded?;
    }
  }

  /** The attempt is over and its own recovery, if it has one, is `own`. */
  predicate OverAs(r: Runtime, a: AttemptId, members: seq<ContextId>, own: Option<RecoveryId>)
  {
    a < |r.attempts| && r.attempts[a].state != InTurn && r.attempts[a].members == members
    && if own.Some? then own.value < |r.recoveries| && r.recoveries[own.value] == a else a !in r.recoveries
  }

  lemma EndIsOver(r: Runtime, a: AttemptId, ok: bool)
    requires Inv(r) && a < |r.attempts| && r.attempts[a].state == InTurn
    ensures OverAs(Terminal(r, a, ok).0, a, r.attempts[a].members, Terminal(r, a, ok).1)
  {
  }

  lemma OverStays(r: Runtime, ev: Event, a: AttemptId, members: seq<ContextId>, own: Option<RecoveryId>)
    requires OverAs(r, a, members, own) && Enabled(r, ev)
    ensures OverAs(Next(r, ev), a, members, own)
  {
    if ev.Ended? && ev.a < |r.attempts| && r.attempts[ev.a].state == InTurn {
      assert ev.a != a;
    }
  }

  lemma OverAtLast(states: seq<Runtime>, events: seq<Event>, i: nat, j: nat, a: AttemptId, ok: bool)
    requires IsRun(Init, Step, states, events) && i < j < |states|
    requires events[i] == Ended(a, ok) && a < |states[i].attempts| && states[i].attempts[a].state == InTurn
    ensures OverAs(states[j], a, states[i].attempts[a].members, Terminal(states[i], a, ok).1)
  {
    TraceKeepsInv(states, events, i);
    StepKeepsInv();
    assert Step(states[i], events[i], states[i + 1]);
    EndIsOver(states[i], a, ok);
    var members, own := states[i].attempts[a].members, Terminal(states[i], a, ok).1;
    forall r, ev, s | Inv(r) && OverAs(r, a, members, own) && Step(r, ev, s)
      ensures OverAs(s, a, members, own)
    {
      OverStays(r, ev, a, members, own);
    }
    HoldsFrom(Init, Step, Inv, (ev: Event) => true, (r: Runtime) => OverAs(r, a, members, own), states, events, i + 1, j);
    assert OverAs(states[j], a, members, own);
  }

  /** A recovered attempt shares its members with no other recovered one. */
  lemma RecoveredShareNothing(r: Runtime, a: AttemptId, own: RecoveryId, k: RecoveryId)
    requires Inv(r) && own < |r.recoveries| && r.recoveries[own] == a && k < |r.recoveries| && Shares(r, a, r.recoveries[k])
    ensures k == own
  {
    var c :| c in r.attempts[a].members && c in r.attempts[r.recoveries[k]].members;
    assert r.sources[c] == Superseded(own) && r.sources[c] == Superseded(k);
  }

  /** A terminal that comes again for an attempt that is over, however much later, changes nothing. Its
      answer is the first one exactly while no other attempt that shares a member with it has been given a
      recovery; after that it is such an attempt's recovery. */
  lemma RepeatedTerminalIff(states: seq<Runtime>, events: seq<Event>, i: nat, j: nat, a: AttemptId, ok: bool, again: bool)
    requires IsRun(Init, Step, states, events) && i < j < |states|
    requires events[i] == Ended(a, ok) && a < |states[i].attempts| && states[i].attempts[a].state == InTurn
    ensures a < |states[j].attempts| && Terminal(states[j], a, again).0 == states[j]
    ensures forall k :: 0 <= k < |states[j].recoveries| ==> states[j].recoveries[k] < |states[j].attempts|
    ensures Terminal(states[j], a, again).1 == Terminal(states[i], a, ok).1 <==>
      forall k :: 0 <= k < |states[j].recoveries| && states[j].recoveries[k] != a ==> !Shares(states[j], a, states[j].recoveries[k])
    ensures Terminal(states[j], a, again).1 != Terminal(states[i], a, ok).1 ==>
      var later := Terminal(states[j], a, again).1;
      later.Some? && later.value < |states[j].recoveries| && Shares(states[j], a, states[j].recoveries[later.value])
  {
    TraceIsExplained(states, events, j);
    OverAtLast(states, events, i, j, a, ok);
    var r := states[j];
    var own := Terminal(states[i], a, ok).1;
    KnownIsShared(r, a);
    if own.Some? {
      var c := r.attempts[a].members[0];
      assert c in r.attempts[r.recoveries[own.value]].members && Shares(r, a, r.recoveries[own.value]);
      forall k | 0 <= k < |r.recoveries| && Shares(r, a, r.recoveries[k])
        ensures k == own.value
      {
        RecoveredShareNothing(r, a, own.value, k);
      }
    }
  }

  /** In particular a terminal that is repeated at once answers the same. */
  lemma RepeatedTerminal(states: seq<Runtime>, events: seq<Event>, i: nat, a: AttemptId, ok: bool, again: bool)
    requires IsRun(Init, Step, states, events) && i < |events|
    requires events[i] == Ended(a, ok) && a < |states[i].attempts| && states[i].attempts[a].state == InTurn
    ensures Terminal(states[i + 1], a, again) == (states[i + 1], Terminal(states[i], a, ok).1)
  {
    RepeatedTerminalIff(states, events, i, i + 1, a, ok, again);
    TraceKeepsInv(states, events, i);
    assert Step(states[i], events[i], states[i + 1]);
    var r := states[i];
    var marked := r.(attempts := r.attempts[a := r.attempts[a].(ops := MarkedUncertain(r.attempts[a].ops))]);
    OpsKeepInv(r, a, MarkedUncertain(r.attempts[a].ops));
    TerminalEnds(r, a, ok, marked);
    EndSharesNothing(marked, a, states[i + 1]);
  }

  lemma RecoveredMembers(r: Runtime, k: RecoveryId)
    requires Recoveries(r) && k < |r.recoveries|
    ensures r.recoveries[k] < |r.attempts|
    ensures forall c :: c in r.attempts[r.recoveries[k]].members ==> c in r.sources && r.sources[c].Superseded?
  {
  }

  /** The members of an attempt that ends are not in any recovered one. */
  lemma EndSharesNothing(r: Runtime, a: AttemptId, s: Runtime)
    requires Membership(r) && Recoveries(r) && a < |r.attempts| && r.attempts[a].state == InTurn && EndsAs(r, a, s)
    ensures forall k :: 0 <= k < |s.recoveries| ==> s.recoveries[k] < |s.attempts|
    ensures forall k :: 0 <= k < |s.recoveries| && s.recoveries[k] != a ==> !Shares(s, a, s.recoveries[k])
  {
    var members := r.attempts[a].members;
    assert forall c :: c in members ==> r.sources[c] == Active(a);
    forall k | 0 <= k < |s.recoveries|
      ensures s.recoveries[k] < |s.attempts| && (s.recoveries[k] != a ==> !Shares(s, a, s.recoveries[k]))
    {
      if k < |r.recoveries| {
        RecoveredMembers(r, k);
        assert s.recoveries[k] == r.recoveries[k];
        if s.recoveries[k] != a { assert s.attempts[s.recoveries[k]] == r.attempts[r.recoveries[k]]; }
      }
    }
  }

  // ---------------------------------------------------------------- the rows in place

  class AssistantRuntime {
    const max: nat
    var sources: map<ContextId, Source>
    var attempts: seq<Attempt>
    var recoveries: seq<AttemptId>
    var warnings: multiset<ContextId>
    var returned: multiset<ContextId>

    function View(): Runtime
      reads this
    {
      Runtime(max, sources, attempts, recoveries, warnings, returned)
    }

    constructor (max: nat)
      requires max >= 1
      ensures Init(View()) && this.max == max
    {
      this.max, sources, attempts, recoveries, warnings, returned := max, map[], [], [], multiset{}, multiset{};
    }

    method SetSources(members: seq<ContextId>, to: Source)
      modifies this`sources
      ensures sources == SetAll(old(sources), members, to)
    {
      for i := 0 to |members|
        invariant sources == SetAll(old(sources), members[..i], to)
      {
        if members[i] in sources { sources := sources[members[i] := to]; }
        assert members[..i + 1] == members[..i] + [members[i]];
      }
      assert members[..|members|] == members;
    }

    /** Which members may be tried again, and which have had their last turn. */
    method SplitMembers(members: seq<ContextId>) returns (given: seq<ContextId>, ended: seq<ContextId>)
      ensures given == RetriedOf(View(), members) && ended == ExhaustedOf(View(), members)
    {
      given, ended := [], [];
      for i := 0 to |members|
        invariant given == RetriedOf(View(), members[..i]) && ended == ExhaustedOf(View(), members[..i])
      {
        assert members[..i + 1][..i] == members[..i];
        if FailedAttempts(attempts, members[i]) + 1 >= max { ended := ended + [members[i]]; } else { given := given + [members[i]]; }
      }
      assert members[..|members|] == members;
    }

    method FailWithoutEffects(a: AttemptId)
      requires a < |attempts|
      modifies this
      ensures View() == GiveBack(old(View()), a)
    {
      var given, ended := SplitMembers(attempts[a].members);
      attempts := attempts[a := attempts[a].(state := TurnFailed)];
      SetSources(given, Pending);
      SetSources(ended, Completed);
      returned, warnings := returned + multiset(given), warnings + multiset(ended);
    }

    method HandleTerminal(a: AttemptId, ok: bool) returns (recovery: Option<RecoveryId>)
      modifies this
      ensures (View(), recovery) == Terminal(old(View()), a, ok)
    {
      if a >= |attempts| { return None; }
      if attempts[a].state != InTurn { return KnownRecovery(sources, attempts[a].members); }
      attempts := attempts[a := attempts[a].(ops := MarkedUncertain(attempts[a].ops))];
      if ok {
        attempts := attempts[a := attempts[a].(state := TurnCompleted)];
        SetSources(attempts[a].members, Completed);
        return None;
      }
      if !Effectful(attempts[a].ops) {
        FailWithoutEffects(a);
        return None;
      }
      recovery := Some(|recoveries|);
      attempts := attempts[a := attempts[a].(state := TurnFailed)];
      SetSources(attempts[a].members, Superseded(|recoveries|));
      recoveries := recoveries + [a];
    }
  }
}

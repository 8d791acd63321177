/**
 The callers that `waitForTerminal` hands to the reconciliation loop: the table of waiters, the
 operations recovery owns, and how a waiter is settled by a pass, by its signal, or by `stop`.
 */
module TerminalWaiters {
  import opened Runs
  import opened RecoveryDecisions

  type WaiterId = nat

  /** `settled[w]` counts how often the promise of waiter `w` was resolved or rejected, and `resolved` holds
      the waiters whose promise was resolved. */
  datatype Table = Table(
    stopped: bool,
    owned: set<OperationId>,
    waiters: map<OperationId, set<WaiterId>>,
    states: map<OperationId, OpState>,
    settled: seq<nat>,
    resolved: set<WaiterId>)

  predicate IsTerminal(t: Table, op: OperationId)
  {
    op in t.states && (t.states[op] == Succeeded || t.states[op] == Failed)
  }

  function Bump(settled: seq<nat>, who: set<WaiterId>): seq<nat>
  {
    seq(|settled|, i requires 0 <= i < |settled| => settled[i] + if i in who then 1 else 0)
  }

  function WaitersOf(t: Table, op: OperationId): set<WaiterId>
  {
    if op in t.waiters then t.waiters[op] else {}
  }

  predicate Among(t: Table, ops: set<OperationId>, w: WaiterId)
  {
    exists op :: op in ops && w in WaitersOf(t, op)
  }

  /** `settleTerminalWaiters`. */
  function SettleAll(t: Table): Table
  {
    var done := set op | op in t.owned && IsTerminal(t, op);
    var freed := set w: WaiterId | w < |t.settled| && Among(t, done, w);
    t.(owned := t.owned - done, waiters := t.waiters - done, settled := Bump(t.settled, freed), resolved := t.resolved + freed)
  }

  /** The abort listener of a waiter that is still attached. */
  function Abort(t: Table, op: OperationId, w: WaiterId): Table
    requires op in t.waiters
  {
    var rest := t.waiters[op] - {w};
    t.(waiters := if rest == {} then t.waiters - {op} else t.waiters[op := rest], settled := Bump(t.settled, {w}))
  }

  function Attach(t: Table, op: OperationId): Table
  {
    t.(owned := t.owned + {op}, waiters := t.waiters[op := WaitersOf(t, op) + {|t.settled|}], settled := t.settled + [0])
  }

  /** `waitForTerminal`: some promises are settled at once. */
  function HandOver(t: Table, op: OperationId, aborted: bool): Table
  {
    if t.stopped || op !in t.states || t.states[op] != Uncertain then
      t.(settled := t.settled + [1], resolved := if !t.stopped && IsTerminal(t, op) then t.resolved + {|t.settled|} else t.resolved)
    else
      var attached := Attach(t, op);
      SettleAll(if aborted then Abort(attached, op, |t.settled|) else attached)
  }

  function Stop(t: Table): Table
  {
    if t.stopped then t
    else
      var all := set w: WaiterId | w < |t.settled| && Among(t, t.waiters.Keys, w);
      t.(stopped := true, owned := {}, waiters := map[], settled := Bump(t.settled, all))
  }

  datatype Event =
    | Waited(op: OperationId, aborted: bool)
    | Passed
    | Aborted(op: OperationId, w: WaiterId)
    | Moved(op: OperationId, state: OpState)
    | Stopped

  predicate Enabled(t: Table, ev: Event)
  {
    match ev
    case Aborted(op, w) => w in WaitersOf(t, op)
    case Moved(op, state) => !IsTerminal(t, op)
    case _ => true
  }

  function Next(t: Table, ev: Event): Table
    requires Enabled(t, ev)
  {
    match ev
    case Waited(op, aborted) => HandOver(t, op, aborted)
    case Passed => SettleAll(t)
    case Aborted(op, w) => Abort(t, op, w)
    case Moved(op, state) => t.(states := t.states[op := state])
    case Stopped => Stop(t)
  }

  ghost predicate Step(t: Table, ev: Event, u: Table)
  {
    Enabled(t, ev) && u == Next(t, ev)
  }

  ghost predicate Init(t: Table)
  {
    t == Table(false, {}, map[], t.states, [], {})
  }

  // ---------------------------------------------------------------- each waiter settles once

  ghost predicate Attached(t: Table, w: WaiterId)
  {
    exists op :: op in t.waiters && w in t.waiters[op]
  }

  ghost predicate Inv(t: Table)
  {
    (forall w: WaiterId :: w < |t.settled| ==> t.settled[w] <= 1 && (t.settled[w] == 0 <==> Attached(t, w)))
    && (forall op, w :: op in t.waiters && w in t.waiters[op] ==> w < |t.settled|)
    && (forall op, other, w :: op in t.waiters && other in t.waiters && w in t.waiters[op] && w in t.waiters[other] ==> op == other)
    && (forall op :: op in t.waiters ==> op in t.owned)
    && (t.stopped ==> t.waiters == map[])
  }

  lemma SettleAllKeepsInv(t: Table)
    requires Inv(t)
    ensures Inv(SettleAll(t))
    ensures forall op :: op in SettleAll(t).owned ==> !IsTerminal(t, op)
  {
    var u := SettleAll(t);
    forall w: WaiterId | w < |t.settled|
      ensures u.settled[w] <= 1 && (u.settled[w] == 0 <==> Attached(u, w))
    {
      if Attached(t, w) {
        var op :| op in t.waiters && w in t.waiters[op];
        if op in u.waiters {
          assert Attached(u, w);
          assert !exists other :: other in t.owned && IsTerminal(t, other) && w in WaitersOf(t, other);
        } else {
          assert op in t.owned && IsTerminal(t, op) && w in WaitersOf(t, op);
          assert u.settled[w] == 1;
          assert !Attached(u, w);
        }
      } else {
        assert !exists other :: other in t.owned && IsTerminal(t, other) && w in WaitersOf(t, other);
        assert !Attached(u, w);
      }
    }
  }

  lemma AbortKeepsInv(t: Table, op: OperationId, w: WaiterId)
    requires Inv(t) && op in t.waiters && w in t.waiters[op]
    ensures Inv(Abort(t, op, w))
  {
    var u := Abort(t, op, w);
    forall v: WaiterId | v < |t.settled|
      ensures u.settled[v] <= 1 && (u.settled[v] == 0 <==> Attached(u, v))
    {
      if v == w {
        assert Attached(t, w);
        assert !Attached(u, w);
      } else if Attached(t, v) {
        var other :| other in t.waiters && v in t.waiters[other];
        assert other in u.waiters && v in u.waiters[other];
      }
    }
  }

  lemma AttachKeepsInv(t: Table, op: OperationId)
    requires Inv(t) && !t.stopped
    ensures Inv(Attach(t, op))
  {
    var u := Attach(t, op);
    forall w: WaiterId | w < |u.settled|
      ensures u.settled[w] <= 1 && (u.settled[w] == 0 <==> Attached(u, w))
    {
      if w == |t.settled| {
        assert op in u.waiters && w in u.waiters[op];
      } else if Attached(t, w) {
        var other :| other in t.waiters && w in t.waiters[other];
        assert other in u.waiters && w in u.waiters[other];
      }
    }
  }

  lemma StopKeepsInv(t: Table)
    requires Inv(t)
    ensures Inv(Stop(t))
  {
    if !t.stopped {
      var u := Stop(t);
      forall w: WaiterId | w < |t.settled|
        ensures u.settled[w] <= 1 && (u.settled[w] == 0 <==> Attached(u, w))
      {
        assert !Attached(u, w);
      }
    }
  }

  lemma NextKeepsInv(t: Table, ev: Event)
    requires Inv(t) && Enabled(t, ev)
    ensures Inv(Next(t, ev))
  {
    match ev
    case Waited(op, aborted) => HandOverKeepsInv(t, op, aborted);
    case Passed => SettleAllKeepsInv(t);
    case Aborted(op, w) => AbortKeepsInv(t, op, w);
    case Stopped => StopKeepsInv(t);
    case Moved(op, state) => MovedKeepsInv(t, op, state);
  }

  lemma MovedKeepsInv(t: Table, op: OperationId, state: OpState)
    requires Inv(t)
    ensures Inv(t.(states := t.states[op := state]))
  {
    var u := t.(states := t.states[op := state]);
    assert forall w :: Attached(u, w) <==> Attached(t, w);
  }

  lemma HandOverKeepsInv(t: Table, op: OperationId, aborted: bool)
    requires Inv(t)
    ensures Inv(HandOver(t, op, aborted))
  {
    if t.stopped || op !in t.states || t.states[op] != Uncertain {
      var u := HandOver(t, op, aborted);
      assert forall w :: Attached(u, w) <==> Attached(t, w);
    } else {
      AttachKeepsInv(t, op);
      var attached := Attach(t, op);
      if aborted { AbortKeepsInv(attached, op, |t.settled|); }
      SettleAllKeepsInv(if aborted then Abort(attached, op, |t.settled|) else attached);
    }
  }

  lemma StepKeepsInv()
    ensures forall t :: Init(t) ==> Inv(t)
    ensures forall t, ev, u :: Inv(t) && Step(t, ev, u) ==> Inv(u)
  {
    forall t, ev, u | Inv(t) && Step(t, ev, u)
      ensures Inv(u)
    {
      NextKeepsInv(t, ev);
    }
  }

  /** A waiter is settled at most once, and until then it is attached to an operation recovery owns,
      in a loop that is not stopped. */
  lemma WaiterSettlesOnce(states: seq<Table>, events: seq<Event>, i: nat, w: WaiterId)
    requires IsRun(Init, Step, states, events) && i < |states| && w < |states[i].settled|
    ensures states[i].settled[w] == 1
      || (states[i].settled[w] == 0 && !states[i].stopped
          && exists op :: op in states[i].waiters && w in states[i].waiters[op] && op in states[i].owned)
  {
    StepKeepsInv();
    HoldsThroughout(Init, Step, Inv, states, events, i);
    if states[i].settled[w] == 0 {
      assert Attached(states[i], w);
      var op :| op in states[i].waiters && w in states[i].waiters[op];
      assert op in states[i].owned;
    }
  }

  /** After `stop` every promise that was ever given is settled, once, and so is every later one. */
  lemma {:induction false} AllSettledAfterStop(states: seq<Table>, events: seq<Event>, stop: nat, i: nat, w: WaiterId)
    requires IsRun(Init, Step, states, events) && stop < i < |states| && events[stop] == Stopped
    ensures states[i].stopped && states[i].waiters == map[]
    ensures w < |states[i].settled| ==> states[i].settled[w] == 1
    decreases i
  {
    var k := i - 1;
    assert Step(states[k], events[k], states[k + 1]);
    StepKeepsInv();
    HoldsThroughout(Init, Step, Inv, states, events, k);
    HoldsThroughout(Init, Step, Inv, states, events, i);
    if k > stop { AllSettledAfterStop(states, events, stop, k, w); }
  }

  /** A pass settles every waiter whose operation is over, and only those. */
  lemma PassSettlesTerminal(states: seq<Table>, events: seq<Event>, i: nat, op: OperationId, w: WaiterId)
    requires IsRun(Init, Step, states, events) && i < |events| && events[i] == Passed
    requires w in WaitersOf(states[i], op)
    ensures w < |states[i].settled| && w < |states[i + 1].settled|
    ensures var over := op in states[i].states && (states[i].states[op] == Succeeded || states[i].states[op] == Failed);
      states[i + 1].settled[w] == (if over then 1 else 0) && (over ==> w in states[i + 1].resolved)
  {
    StepKeepsInv();
    HoldsThroughout(Init, Step, Inv, states, events, i);
    HoldsThroughout(Init, Step, Inv, states, events, i + 1);
    var t := states[i];
    assert Step(t, events[i], states[i + 1]);
    assert op in t.waiters && op in t.owned && Attached(t, w);
    if !IsTerminal(t, op) { assert w in SettleAll(t).waiters[op] && Attached(SettleAll(t), w); }
  }

  /** Waiter `w` is attached to an operation that is over. */
  predicate WaitsInVain(t: Table, w: WaiterId)
  {
    exists op :: op in t.waiters && w in t.waiters[op] && op in t.states && (t.states[op] == Succeeded || t.states[op] == Failed)
  }

  /** The call leaves its caller attached, and settles the waiters of what is over on the way. */
  predicate Attaches(t: Table, ev: Event)
  {
    ev.Waited? && !t.stopped && ev.op in t.states && t.states[ev.op] == Uncertain
  }

  /** A promise is resolved only for an operation that is over: at once, or by a pass or a later call that
      finds it over. Every other end of a wait is a rejection. */
  lemma ResolvedAfter(t: Table, ev: Event, w: WaiterId)
    requires Inv(t) && Enabled(t, ev)
    ensures w in Next(t, ev).resolved <==>
      w in t.resolved
      || ((ev.Passed? || Attaches(t, ev)) && WaitsInVain(t, w))
      || (ev.Waited? && w == |t.settled| && !t.stopped && ev.op in t.states && (t.states[ev.op] == Succeeded || t.states[ev.op] == Failed))
  {
    match ev
    case Passed => FreedIff(t, w);
    case Waited(op, aborted) =>
      if Attaches(t, ev) {
        AttachKeepsInv(t, op);
        var attached := Attach(t, op);
        if aborted { AbortKeepsInv(attached, op, |t.settled|); }
        var u := if aborted then Abort(attached, op, |t.settled|) else attached;
        FreedIff(u, w);
        SameVain(t, op, aborted, w);
      }
    case _ =>
  }

  lemma FreedIff(t: Table, w: WaiterId)
    requires Inv(t)
    ensures w in SettleAll(t).resolved <==> w in t.resolved || WaitsInVain(t, w)
  {
    var done := set op | op in t.owned && IsTerminal(t, op);
    if WaitsInVain(t, w) {
      var op :| op in t.waiters && w in t.waiters[op] && op in t.states && (t.states[op] == Succeeded || t.states[op] == Failed);
      assert op in done && w in WaitersOf(t, op);
      assert Among(t, done, w);
    }
    if Among(t, done, w) {
      var op :| op in done && w in WaitersOf(t, op);
      assert op in t.waiters && w in t.waiters[op];
    }
  }

  lemma SameVain(t: Table, op: OperationId, aborted: bool, w: WaiterId)
    requires Inv(t) && op in t.states && t.states[op] == Uncertain && op in Attach(t, op).waiters
    ensures WaitsInVain(if aborted then Abort(Attach(t, op), op, |t.settled|) else Attach(t, op), w) <==> WaitsInVain(t, w)
  {
    var u := if aborted then Abort(Attach(t, op), op, |t.settled|) else Attach(t, op);
    assert forall other :: other != op ==> (other in u.waiters <==> other in t.waiters) && (other in t.waiters ==> u.waiters[other] == t.waiters[other]);
  }

  /** Over every run: the promise of a wait for `op` is resolved only once `op` has succeeded or failed. */
  lemma {:induction false} ResolvedWaitIsOver(states: seq<Table>, events: seq<Event>, j: nat, i: nat, op: OperationId)
    requires IsRun(Init, Step, states, events) && j < i < |states| && events[j].Waited? && events[j].op == op
    ensures var w, t := |states[j].settled|, states[i];
      (w in t.resolved ==> op in t.states && (t.states[op] == Succeeded || t.states[op] == Failed))
      && (forall other :: other in t.waiters && w in t.waiters[other] ==> other == op)
      && w < |t.settled|
    decreases i
  {
    var k := i - 1;
    assert Step(states[k], events[k], states[k + 1]);
    StepKeepsInv();
    HoldsThroughout(Init, Step, Inv, states, events, k);
    ResolvedAreGiven(states, events, k);
    ResolvedAfter(states[k], events[k], |states[j].settled|);
    if k > j {
      ResolvedWaitIsOver(states, events, j, k, op);
      WaitersAfter(states[k], events[k], |states[j].settled|);
    } else {
      NewWaiterIsAt(states[k], events[k]);
    }
  }

  /** Only promises that were given are resolved. */
  lemma {:induction false} ResolvedAreGiven(states: seq<Table>, events: seq<Event>, i: nat)
    requires IsRun(Init, Step, states, events) && i < |states|
    ensures forall w :: w in states[i].resolved ==> w < |states[i].settled|
  {
    if i > 0 {
      ResolvedAreGiven(states, events, i - 1);
      assert Step(states[i - 1], events[i - 1], states[i - 1 + 1]);
    }
  }

  /** No step attaches a waiter that was given before to anything. */
  lemma WaitersAfter(t: Table, ev: Event, w: WaiterId)
    requires Inv(t) && Enabled(t, ev) && w < |t.settled|
    ensures var u := Next(t, ev);
      |u.settled| >= |t.settled|
      && forall op :: op in u.waiters && w in u.waiters[op] ==> op in t.waiters && w in t.waiters[op]
  {
  }

  lemma NewWaiterIsAt(t: Table, ev: Event)
    requires Inv(t) && ev.Waited?
    ensures var u := Next(t, ev);
      |u.settled| == |t.settled| + 1 && forall op :: op in u.waiters && |t.settled| in u.waiters[op] ==> op == ev.op
  {
  }

  /** What a call gives its caller at once: resolution if the operation is over, rejection if the loop is
      stopped, the operation is not uncertain or the signal has fired, and otherwise a promise to wait on. */
  lemma HandOverAnswers(t: Table, op: OperationId, aborted: bool)
    requires Inv(t) && |t.settled| !in t.resolved
    ensures var u, w := HandOver(t, op, aborted), |t.settled|;
      var over := op in t.states && (t.states[op] == Succeeded || t.states[op] == Failed);
      |u.settled| == w + 1
      && (w in u.resolved <==> !t.stopped && over)
      && (u.settled[w] == 0 <==> !t.stopped && op in t.states && t.states[op] == Uncertain && !aborted)
  {
    ResolvedAfter(t, Waited(op, aborted), |t.settled|);
    HandOverKeepsInv(t, op, aborted);
    var u, w := HandOver(t, op, aborted), |t.settled|;
    if !t.stopped && op in t.states && t.states[op] == Uncertain {
      var attached := Attach(t, op);
      if aborted {
        AttachKeepsInv(t, op);
        AbortKeepsInv(attached, op, w);
        NewWaiterIsAt(t, Waited(op, aborted));
        assert !Attached(Abort(attached, op, w), w);
      } else {
        assert op in u.waiters && w in u.waiters[op];
        assert Attached(u, w);
      }
    }
  }

  /** What recovery owns: an uncertain operation that some caller waits for, from then on until it is over or
      the loop stops; that its callers have gone away does not matter. */
  lemma OwnedAfter(t: Table, ev: Event, op: OperationId)
    requires Inv(t) && Enabled(t, ev)
    ensures var over := op in t.states && (t.states[op] == Succeeded || t.states[op] == Failed);
      op in Next(t, ev).owned <==>
        if ev.Passed? then op in t.owned && !over
        else if Attaches(t, ev) then op == ev.op || (op in t.owned && !over)
        else op in t.owned && !(ev.Stopped? && !t.stopped)
  {
  }

  lemma SettledOps(t: Table)
    ensures var u := SettleAll(t);
      var done := t.owned - u.owned;
      u == t.(owned := t.owned - done, waiters := t.waiters - done, settled := u.settled, resolved := u.resolved)
      && forall op :: op in t.owned ==> (op in done <==> IsTerminal(t, op))
  {
    var done := set op | op in t.owned && IsTerminal(t, op);
    assert t.owned - SettleAll(t).owned == done;
  }

  // ---------------------------------------------------------------- the table in place

  class WaiterTable {
    var stopped: bool
    var owned: set<OperationId>
    var waiters: map<OperationId, set<WaiterId>>
    var states: map<OperationId, OpState>
    ghost var settled: seq<nat>
    ghost var resolved: set<WaiterId>
    var created: nat

    ghost function View(): Table
      reads this
    {
      Table(stopped, owned, waiters, states, settled, resolved)
    }

    constructor (states: map<OperationId, OpState>)
      ensures Init(View()) && this.states == states && created == 0
    {
      stopped, owned, waiters, this.states, settled, resolved, created := false, {}, map[], states, [], {}, 0;
    }

    method DropTerminal(ghost done: set<OperationId>)
      requires done <= owned
      requires forall op :: op in owned ==> (op in done <==> op in states && (states[op] == Succeeded || states[op] == Failed))
      modifies this`owned, this`waiters
      ensures owned == old(owned) - done && waiters == old(waiters) - done
    {
      ghost var removed: set<OperationId> := {};
      var todo := owned;
      while todo != {}
        invariant todo <= old(owned)
        invariant removed <= done <= removed + todo
        invariant owned == old(owned) - removed && waiters == old(waiters) - removed
        decreases |todo|
      {
        var op :| op in todo;
        if op in states && (states[op] == Succeeded || states[op] == Failed) {
          owned, waiters, removed := owned - {op}, waiters - {op}, removed + {op};
        }
        todo := todo - {op};
      }
      assert removed == done;
    }

    method SettleTerminalWaiters()
      modifies this`owned, this`waiters, this`settled, this`resolved
      ensures View() == SettleAll(old(View()))
    {
      ghost var was := View();
      ghost var after := SettleAll(was);
      SettledOps(was);
      DropTerminal(was.owned - after.owned);
      settled, resolved := after.settled, after.resolved;
    }

    method AbortWaiter(op: OperationId, w: WaiterId)
      requires op in waiters
      modifies this`waiters, this`settled
      ensures View() == Abort(old(View()), op, w)
    {
      var rest := waiters[op] - {w};
      waiters := if rest == {} then waiters - {op} else waiters[op := rest];
      settled := Bump(settled, {w});
    }

    /** `requested`: the operation is newly owned, so a pass is requested for it. */
    method WaitForTerminal(op: OperationId, aborted: bool) returns (requested: bool)
      requires created == |settled|
      modifies this
      ensures View() == HandOver(old(View()), op, aborted) && created == |settled|
      ensures requested <==> op !in old(owned) && op in owned
    {
      var w := created;
      created := created + 1;
      if stopped || op !in states || states[op] != Uncertain {
        settled := settled + [1];
        if !stopped && IsTerminal(View(), op) { resolved := resolved + {w}; }
        return false;
      }
      var newly := op !in owned;
      owned := owned + {op};
      waiters := waiters[op := (if op in waiters then waiters[op] else {}) + {w}];
      settled := settled + [0];
      if aborted { AbortWaiter(op, w); }
      SettleTerminalWaiters();
      requested := newly && op in owned;
    }

    method StopAll()
      modifies this
      ensures View() == Stop(old(View())) && created == old(created)
    {
      if stopped { return; }
      ghost var all := set w: WaiterId | w < |settled| && Among(View(), waiters.Keys, w);
      settled := Bump(settled, all);
      stopped, owned, waiters := true, {}, map[];
    }
  }
}

/**
 `runAssistantCompaction` over any number of drains and crashes. A thread is its number of turns
 and, for each compaction item, the turn it is in; `calls` counts the native compact calls of one action.
 */
module AssistantCompaction {
  import opened Common
  import opened Runs
  import opened PostTurnActions

  datatype Phase = NoPhase | Dispatching | Dispatched

  /** `baseline` is the number of turns up to the baseline turn; 0 is a null baseline. */
  datatype Plan = Plan(baseline: Option<nat>, phase: Phase)

  /** Turns are numbered from 0; an item is given by the number of its turn. */
  datatype Thread = Thread(turns: nat, items: seq<nat>)

  /** Where the one live handler is, with what it has read. */
  datatype Pc =
    | NoHandler
    | ReadingThread(plan: Plan)
    | LookingForEvidence(plan: Plan, turns: nat)
    | AwaitingCompact(baseline: nat)
    | AwaitingEvidence(baseline: nat)

  datatype World = World(state: State, plan: Plan, pc: Pc, thread: Thread, calls: nat)

  /** A compaction item in a turn after the baseline turn. */
  predicate Evidence(thread: Thread, baseline: nat)
  {
    exists i :: 0 <= i < |thread.items| && thread.items[i] >= baseline
  }

  datatype Event =
    | DrainBegan
    | ThreadRead(active: bool)
    | EvidenceRead
    | CompactReturned
    | EvidencePolled(visible: bool)
    | PortFailed(fatal: bool)
    | Crashed
    | TurnAdded
    | ItemAdded(turn: nat)

  predicate Enabled(w: World, ev: Event)
  {
    match ev
    case DrainBegan => w.pc == NoHandler && !Over(w.state)
    case ThreadRead(_) => w.pc.ReadingThread?
    case EvidenceRead => w.pc.LookingForEvidence? && w.pc.plan.baseline.Some?
    case CompactReturned => w.pc.AwaitingCompact?
    case EvidencePolled(visible) => w.pc.AwaitingEvidence? && (visible ==> Evidence(w.thread, w.pc.baseline))
    case ItemAdded(turn) => turn < w.thread.turns
    case PortFailed(_) => w.pc != NoHandler
    case _ => true
  }

  function Finish(w: World, state: State): World
  {
    w.(pc := NoHandler, state := state)
  }

  /** Checkpoint and native call, with nothing between them. */
  function Dispatch(w: World, turns: nat): World
  {
    if w.state != Running then Finish(w, w.state)
    else w.(plan := Plan(Some(turns), Dispatching), calls := w.calls + 1, pc := AwaitingCompact(turns))
  }

  function Next(w: World, ev: Event): World
    requires Enabled(w, ev)
  {
    match ev
    case DrainBegan => w.(state := Running, pc := ReadingThread(w.plan))
    case ThreadRead(active) =>
      var plan := w.pc.plan;
      if active then Finish(w, Pending)
      else if plan.baseline.Some? then w.(pc := LookingForEvidence(plan, w.thread.turns))
      else if plan.phase != NoPhase then Finish(w, Pending)
      else Dispatch(w, w.thread.turns)
    case EvidenceRead =>
      var plan := w.pc.plan;
      if Evidence(w.thread, plan.baseline.value) then Finish(w, Completed)
      else if plan.phase != NoPhase then Finish(w, Pending)
      else Dispatch(w, w.pc.turns)
    case CompactReturned => w.(plan := Plan(Some(w.pc.baseline), Dispatched), pc := AwaitingEvidence(w.pc.baseline))
    case EvidencePolled(visible) => Finish(w, if visible then Completed else Pending)
    case PortFailed(fatal) => Finish(w, if fatal then Failed else Pending)
    case Crashed => w.(pc := NoHandler)
    case TurnAdded => w.(thread := w.thread.(turns := w.thread.turns + 1))
    case ItemAdded(turn) => w.(thread := w.thread.(items := w.thread.items + [turn]))
  }

  ghost predicate Step(w: World, ev: Event, v: World)
  {
    Enabled(w, ev) && v == Next(w, ev)
  }

  /** Scheduled with any plan; a plan that already has a phase was dispatched by somebody else. */
  ghost predicate Init(w: World)
  {
    w.state == Pending && w.pc == NoHandler && w.calls == 0 && ItemsHaveTurns(w.thread)
  }

  predicate ItemsHaveTurns(thread: Thread)
  {
    forall i :: 0 <= i < |thread.items| ==> thread.items[i] < thread.turns
  }

  ghost predicate Inv(w: World)
  {
    && ItemsHaveTurns(w.thread)
    && w.calls <= 1
    && (w.plan.phase == NoPhase ==> w.calls == 0)
    && (Over(w.state) ==> w.pc == NoHandler)
    && (w.pc != NoHandler ==> w.state == Running)
    && (w.pc.ReadingThread? ==> w.pc.plan == w.plan)
    && (w.pc.LookingForEvidence? ==> w.pc.plan == w.plan && w.plan.baseline.Some?)
    && (w.pc.AwaitingCompact? || w.pc.AwaitingEvidence? ==> w.plan.baseline == Some(w.pc.baseline) && w.plan.phase != NoPhase)
    && (w.state == Completed ==> w.plan.baseline.Some? && Evidence(w.thread, w.plan.baseline.value))
  }

  lemma EvidenceStays(thread: Thread, item: nat, baseline: nat)
    ensures Evidence(thread, baseline) ==> Evidence(thread.(items := thread.items + [item]), baseline)
  {
    if Evidence(thread, baseline) {
      var i :| 0 <= i < |thread.items| && thread.items[i] >= baseline;
      assert (thread.items + [item])[i] == thread.items[i];
    }
  }

  lemma NextKeepsInv(w: World, ev: Event)
    requires Inv(w) && Enabled(w, ev)
    ensures Inv(Next(w, ev))
  {
    if ev.ItemAdded? && w.plan.baseline.Some? { EvidenceStays(w.thread, ev.turn, w.plan.baseline.value); }
  }

  lemma StepKeepsInv()
    ensures forall w :: Init(w) ==> Inv(w)
    ensures forall w, ev, v :: Inv(w) && Step(w, ev, v) ==> Inv(v)
  {
    forall w, ev, v | Inv(w) && Step(w, ev, v)
      ensures Inv(v)
    {
      NextKeepsInv(w, ev);
    }
  }

  /** Over any drains, retries and crashes, one action calls the native compact at most once and is
      completed only with a compaction item after its baseline. */
  lemma CompactsAtMostOnce(states: seq<World>, events: seq<Event>, i: nat)
    requires IsRun(Init, Step, states, events) && i < |states|
    ensures states[i].calls <= 1
    ensures states[i].state == Completed ==>
      states[i].plan.baseline.Some? && exists item <- states[i].thread.items :: item >= states[i].plan.baseline.value
  {
    StepKeepsInv();
    HoldsThroughout(Init, Step, Inv, states, events, i);
    if states[i].state == Completed { EvidenceIsItem(states[i].thread, states[i].plan.baseline.value); }
  }

  lemma EvidenceIsItem(thread: Thread, baseline: nat)
    ensures Evidence(thread, baseline) <==> exists item <- thread.items :: item >= baseline
  {
    if Evidence(thread, baseline) {
      var i :| 0 <= i < |thread.items| && thread.items[i] >= baseline;
      assert thread.items[i] in thread.items;
    }
  }

  /** This step finds an item after the baseline that the handler has read. */
  predicate FindsItem(w: World, ev: Event)
    requires Enabled(w, ev)
  {
    ev == EvidenceRead && exists item <- w.thread.items :: item >= w.pc.plan.baseline.value
  }

  /** When the native compact is called: by a handler whose plan has no phase yet, on an idle thread, once it
      has found no item after the baseline it was scheduled with, if it was scheduled with one. */
  lemma CallsIff(w: World, ev: Event)
    requires Inv(w) && Enabled(w, ev)
    ensures Next(w, ev).calls == w.calls +
      if w.plan.phase == NoPhase && ((ev == ThreadRead(false) && w.plan.baseline.None?) || (ev == EvidenceRead && !FindsItem(w, ev))) then 1 else 0
  {
    if ev == EvidenceRead { EvidenceIsItem(w.thread, w.pc.plan.baseline.value); }
  }

  /** How a handler ends: with an item after the baseline the action is completed, a fatal error fails it, and
      everything else that stops the handler leaves it for the next drain. */
  lemma StateAfter(w: World, ev: Event)
    requires Inv(w) && Enabled(w, ev)
    ensures var v := Next(w, ev);
      (v.state == Completed <==> w.state == Completed || FindsItem(w, ev) || ev == EvidencePolled(true))
      && (v.state == Failed <==> w.state == Failed || ev == PortFailed(true))
      && (w.pc != NoHandler && v.pc == NoHandler && v.state != Completed && v.state != Failed ==> v.state == if ev.Crashed? then Running else Pending)
      && (v.pc != NoHandler ==> v.state == Running)
  {
    if ev == EvidenceRead { EvidenceIsItem(w.thread, w.pc.plan.baseline.value); }
  }

  /** The last read of the thread by the handler that is at work in state `i`: it found the thread idle,
      and nobody but other people's turns and items has moved since. */
  ghost predicate ReadIdleAt(states: seq<World>, events: seq<Event>, i: nat, k: nat, turns: nat)
    requires i < |states| == |events| + 1
  {
    k < i && events[k] == ThreadRead(false) && states[k].thread.turns == turns
    && forall j :: k < j < i ==> events[j].TurnAdded? || events[j].ItemAdded?
  }

  lemma {:induction false} EvidenceIsReadIdle(states: seq<World>, events: seq<Event>, i: nat) returns (k: nat)
    requires IsRun(Init, Step, states, events) && i < |states| && states[i].pc.LookingForEvidence?
    ensures ReadIdleAt(states, events, i, k, states[i].pc.turns)
  {
    var before := i - 1;
    assert Step(states[before], events[before], states[before + 1]);
    if events[before].ThreadRead? { k := before; } else { k := EvidenceIsReadIdle(states, events, before); }
  }

  /** The native compact is called only by a drain that has itself just read the thread idle, and the
      baseline it leaves is the thread as it was then read: no item that was there counts as evidence. */
  lemma CallFollowsIdleRead(states: seq<World>, events: seq<Event>, i: nat) returns (k: nat)
    requires IsRun(Init, Step, states, events) && i < |events| && states[i + 1].calls != states[i].calls
    ensures k <= i && states[i + 1].plan == Plan(Some(states[k].thread.turns), Dispatching)
    ensures if k == i then events[i] == ThreadRead(false)
            else events[i] == EvidenceRead && ReadIdleAt(states, events, i, k, states[k].thread.turns)
    ensures !Evidence(states[k].thread, states[k].thread.turns)
  {
    assert Step(states[i], events[i], states[i + 1]);
    if events[i].ThreadRead? { k := i; } else { k := EvidenceIsReadIdle(states, events, i); }
    StepKeepsInv();
    HoldsThroughout(Init, Step, Inv, states, events, k);
  }

  /** The stored plan changes at two places only: before the call, and when it has come back. */
  lemma CheckpointsInOrder(states: seq<World>, events: seq<Event>, i: nat)
    requires IsRun(Init, Step, states, events) && i < |events| && states[i + 1].plan != states[i].plan
    ensures if events[i] == CompactReturned then states[i + 1].plan == states[i].plan.(phase := Dispatched) && states[i + 1].calls == states[i].calls
            else states[i].plan.phase == NoPhase && states[i + 1].plan.phase == Dispatching && states[i + 1].calls == states[i].calls + 1
  {
    StepKeepsInv();
    HoldsThroughout(Init, Step, Inv, states, events, i);
    assert Step(states[i], events[i], states[i + 1]);
  }

  /** An action that is over keeps its verdict, and its handler never calls again. */
  lemma VerdictIsFinal(states: seq<World>, events: seq<Event>, i: nat, j: nat)
    requires IsRun(Init, Step, states, events) && i <= j < |states| && (states[i].state == Completed || states[i].state == Failed)
    ensures states[j].state == states[i].state && states[j].calls == states[i].calls && states[j].plan == states[i].plan
  {
    StepKeepsInv();
    HoldsThroughout(Init, Step, Inv, states, events, i);
    var was := states[i];
    forall w, ev, v | Inv(w) && FinalAs(w, was) && Step(w, ev, v)
      ensures FinalAs(v, was)
    {
    }
    HoldsFrom(Init, Step, Inv, (ev: Event) => true, (w: World) => FinalAs(w, was), states, events, i, j);
  }

  predicate FinalAs(w: World, was: World)
  {
    w.state == was.state && Over(w.state) && w.calls == was.calls && w.plan == was.plan && w.pc == NoHandler
  }

  /** A drain after a dispatch never dispatches again: with an idle thread and no failure it completes
      if there is evidence and otherwise goes back to pending. */
  lemma LaterDrainOnlyLooks(w: World)
    requires Inv(w) && w.pc == NoHandler && w.state != Completed && w.state != Failed && w.plan.phase != NoPhase && w.plan.baseline.Some?
    ensures var looking := Next(Next(w, DrainBegan), ThreadRead(false));
      Enabled(looking, EvidenceRead)
      && Next(looking, EvidenceRead) ==
           w.(state := if exists item <- w.thread.items :: item >= w.plan.baseline.value then Completed else Pending)
  {
    EvidenceIsItem(w.thread, w.plan.baseline.value);
  }
}

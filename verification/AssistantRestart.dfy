/**
 `runAssistantRestart` over any number of drains and crashes. `live` is the identity of the runtime
 that answers, if any; it may change between any two steps.
 */
module AssistantRestart {
  import opened Common
  import opened Runs
  import opened PostTurnActions

  type RuntimeIdentity = nat

  datatype Phase = NoPhase | ShuttingDown | StartingPhase

  datatype Pc =
    | NoHandler
    | ReadingIdentity(phase: Phase)
    | AwaitingShutdown
    | AwaitingStart
    | ConfirmingIdentity

  /** `shutdowns` are the identities handed to the runtime to shut down; `confirmed` is the identity
      on which the action was completed. */
  datatype World = World(
    scheduled: RuntimeIdentity, state: State, phase: Phase, pc: Pc, live: Option<RuntimeIdentity>,
    shutdowns: seq<RuntimeIdentity>, starts: nat, confirmed: Option<RuntimeIdentity>)

  datatype Event =
    | DrainBegan
    | IdentityRead
    | ShutdownReturned
    | StartReturned
    | ReplacementRead
    | PortFailed(fatal: bool)
    | Crashed
    | RuntimeChanged(live: Option<RuntimeIdentity>)

  predicate Enabled(w: World, ev: Event)
  {
    match ev
    case DrainBegan => w.pc == NoHandler && !Over(w.state)
    case IdentityRead => w.pc.ReadingIdentity?
    case ShutdownReturned => w.pc == AwaitingShutdown
    case StartReturned => w.pc == AwaitingStart
    case ReplacementRead => w.pc == ConfirmingIdentity
    case PortFailed(_) => w.pc != NoHandler
    case _ => true
  }

  function Complete(w: World): World
    requires w.live.Some?
  {
    w.(pc := NoHandler, state := Completed, confirmed := w.live)
  }

  function StartReplacement(w: World): World
  {
    w.(phase := StartingPhase, starts := w.starts + 1, pc := AwaitingStart)
  }

  function Next(w: World, ev: Event): World
    requires Enabled(w, ev)
  {
    match ev
    case DrainBegan => w.(state := Running, pc := ReadingIdentity(w.phase))
    case IdentityRead =>
      if w.live.Some? && w.live.value != w.scheduled then
        if w.pc.phase == StartingPhase then w.(starts := w.starts + 1, pc := AwaitingStart) else Complete(w)
      else if w.live.Some? then w.(phase := ShuttingDown, shutdowns := w.shutdowns + [w.scheduled], pc := AwaitingShutdown)
      else StartReplacement(w)
    case ShutdownReturned => StartReplacement(w)
    case StartReturned => w.(pc := ConfirmingIdentity)
    case ReplacementRead =>
      if w.live.None? || w.live.value == w.scheduled then w.(pc := NoHandler, state := Pending) else Complete(w)
    case PortFailed(fatal) => w.(pc := NoHandler, state := if fatal then Failed else Pending)
    case Crashed => w.(pc := NoHandler)
    case RuntimeChanged(live) => w.(live := live)
  }

  ghost predicate Step(w: World, ev: Event, v: World)
  {
    Enabled(w, ev) && v == Next(w, ev)
  }

  ghost predicate Init(w: World)
  {
    w.state == Pending && w.pc == NoHandler && w.phase == NoPhase && w.shutdowns == [] && w.starts == 0 && w.confirmed.None?
  }

  ghost predicate Inv(w: World)
  {
    && (Over(w.state) ==> w.pc == NoHandler)
    && (w.pc != NoHandler ==> w.state == Running)
    && (w.pc.ReadingIdentity? ==> w.pc.phase == w.phase)
    && (forall i :: 0 <= i < |w.shutdowns| ==> w.shutdowns[i] == w.scheduled)
    && (w.state == Completed ==> w.confirmed.Some? && w.confirmed.value != w.scheduled)
    && (w.state != Completed ==> w.confirmed.None?)
    && (w.starts > 0 ==> w.phase != NoPhase)
    && (w.pc == AwaitingStart || w.pc == ConfirmingIdentity ==> w.phase == StartingPhase)
  }

  lemma StepKeepsInv()
    ensures forall w :: Init(w) ==> Inv(w)
    ensures forall w, ev, v :: Inv(w) && Step(w, ev, v) ==> Inv(v)
  {
    forall w, ev, v | Inv(w) && Step(w, ev, v)
      ensures Inv(v)
    {
    }
  }

  /** Over any drains, retries, crashes and changes of the runtime, one action hands only its scheduled
      identity to be shut down, and is completed only on another identity that was live. */
  lemma RestartsOnlyScheduled(states: seq<World>, events: seq<Event>, i: nat)
    requires IsRun(Init, Step, states, events) && i < |states|
    ensures forall k :: 0 <= k < |states[i].shutdowns| ==> states[i].shutdowns[k] == states[i].scheduled
    ensures states[i].state == Completed ==> states[i].confirmed.Some? && states[i].confirmed.value != states[i].scheduled
  {
    StepKeepsInv();
    HoldsThroughout(Init, Step, Inv, states, events, i);
  }

  /** The step that completes an action finds that other identity live, and a restart that had begun a
      replacement has started and resumed it first. */
  lemma CompletedOnLiveReplacement(states: seq<World>, events: seq<Event>, i: nat)
    requires IsRun(Init, Step, states, events) && i < |events|
    requires states[i].state != Completed && states[i + 1].state == Completed
    ensures states[i].live.Some? && states[i].live == states[i + 1].confirmed && states[i].live.value != states[i].scheduled
    ensures states[i].phase == StartingPhase ==> states[i].starts > 0 && events[i] == ReplacementRead
  {
    StepKeepsInv();
    StartedKeepsInv();
    HoldsThroughout(Init, Step, Inv, states, events, i);
    HoldsThroughout(Init, Step, Started, states, events, i);
    assert Step(states[i], events[i], states[i + 1]);
  }

  predicate Started(w: World)
  {
    (w.phase == StartingPhase ==> w.starts > 0) && (w.pc.ReadingIdentity? ==> w.pc.phase == w.phase)
  }

  lemma StartedKeepsInv()
    ensures forall w :: Init(w) ==> Started(w)
    ensures forall w, ev, v :: Started(w) && Step(w, ev, v) ==> Started(v)
  {
    forall w, ev, v | Started(w) && Step(w, ev, v)
      ensures Started(v)
    {
    }
  }

  predicate FinalAs(w: World, was: World)
  {
    Over(w.state) && w.pc == NoHandler
    && w == was.(live := w.live)
  }

  /** Nothing but the runtime changes once an action is over. */
  lemma VerdictIsFinal(states: seq<World>, events: seq<Event>, i: nat, j: nat)
    requires IsRun(Init, Step, states, events) && i <= j < |states| && (states[i].state == Completed || states[i].state == Failed)
    ensures states[j] == states[i].(live := states[j].live)
  {
    StepKeepsInv();
    HoldsThroughout(Init, Step, Inv, states, events, i);
    var was := states[i];
    forall w, ev, v | Inv(w) && FinalAs(w, was) && Step(w, ev, v)
      ensures FinalAs(v, was)
    {
    }
    HoldsFrom(Init, Step, Inv, (ev: Event) => true, (w: World) => FinalAs(w, was), states, events, i, j);
    assert FinalAs(states[j], was);
  }


  /** The steps that hand a runtime to be replaced: the runtime handed over is the one that is live, and a
      replacement starts only when that shutdown has returned or the scheduled runtime is not live. */
  lemma ReplacesOnlyScheduled(states: seq<World>, events: seq<Event>, i: nat)
    requires IsRun(Init, Step, states, events) && i < |events|
    ensures states[i + 1].shutdowns != states[i].shutdowns ==>
      events[i] == IdentityRead && states[i].live == Some(states[i].scheduled)
      && states[i + 1].shutdowns == states[i].shutdowns + [states[i].scheduled]
    ensures states[i + 1].starts != states[i].starts ==>
      events[i] == ShutdownReturned || (events[i] == IdentityRead && states[i].live != Some(states[i].scheduled))
    ensures states[i + 1].starts <= states[i].starts + 1
  {
    assert Step(states[i], events[i], states[i + 1]);
  }

  /** What every step hands to the runtime and makes of the action, from the identity that is live: the
      scheduled one is shut down, none is replaced, and another one completes the action, unless a
      replacement had been begun, which is started again and confirmed first. */
  lemma RestartAfter(w: World, ev: Event)
    requires Inv(w) && Enabled(w, ev)
    ensures var v := Next(w, ev);
      var other := w.live.Some? && w.live.value != w.scheduled;
      v.shutdowns == w.shutdowns + (if ev == IdentityRead && w.live == Some(w.scheduled) then [w.scheduled] else [])
      && v.starts == w.starts + (if ev == ShutdownReturned || (ev == IdentityRead && (w.live.None? || (other && w.phase == StartingPhase))) then 1 else 0)
      && (v.state == Completed <==> w.state == Completed || (other && ev == if w.phase == StartingPhase then ReplacementRead else IdentityRead))
      && (v.state == Failed <==> w.state == Failed || ev == PortFailed(true))
      && (w.pc != NoHandler && v.pc == NoHandler && v.state != Completed && v.state != Failed ==> v.state == if ev.Crashed? then Running else Pending)
    ensures var v := Next(w, ev);
      var other := w.live.Some? && w.live.value != w.scheduled;
      (v.pc == AwaitingShutdown <==> if ev == IdentityRead then w.live == Some(w.scheduled) else w.pc == AwaitingShutdown && ev.RuntimeChanged?)
      && (v.pc == AwaitingStart <==> v.starts > w.starts || (w.pc == AwaitingStart && ev.RuntimeChanged?))
      && (v.pc == ConfirmingIdentity <==> ev == StartReturned || (w.pc == ConfirmingIdentity && ev.RuntimeChanged?))
      && (v.pc.ReadingIdentity? <==> ev == DrainBegan || (w.pc.ReadingIdentity? && ev.RuntimeChanged?))
      && v.phase == if v.shutdowns != w.shutdowns then ShuttingDown
                    else if v.starts > w.starts then StartingPhase else w.phase
  {
    assert w.shutdowns + [] == w.shutdowns;
  }

  /** A drain that reads the scheduled identity always shuts it down, even after a crash in the middle of a
      replacement: an old runtime that answers again is never taken for the new one. */
  lemma ScheduledIsShutDownAgain(w: World)
    requires w.pc.ReadingIdentity? && w.live == Some(w.scheduled)
    ensures var v := Next(w, IdentityRead);
      v.pc == AwaitingShutdown && v.phase == ShuttingDown && v.shutdowns == w.shutdowns + [w.scheduled] && v.confirmed == w.confirmed
  {
  }
}

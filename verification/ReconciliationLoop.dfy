/**
 The coalescing loop of `createOperationReconciliationLoop`: requests, runs of passes, the
 continuations that callers leave on a run, and the retry timer. Every step is one stretch of
 code between two awaits. `unserved` counts the requests no pass has begun after.
 */
module ReconciliationLoop {
  import opened Common
  import opened Runs

  /** `runCoalesced`: not begun, in a pass, or past its last check and not yet settled. */
  datatype Phase = Scheduled | InPass(queuedBefore: bool) | Finishing(threw: bool)
  datatype Run = Run(id: nat, phase: Phase)

  datatype Loop = Loop(
    running: Option<nat>,
    runs: seq<Run>,
    nextRun: nat,
    followup: bool,
    waiting: nat,
    resumable: nat,
    timerActive: bool,
    retryAttempt: nat,
    ownedRetry: bool,
    stopped: bool,
    unserved: nat)

  datatype Event =
    | Requested
    | Began(i: nat)
    | PassDone(i: nat, retry: bool)
    | PassThrew(i: nat, owned: bool)
    | Settled(i: nat)
    | Resumed
    | TimerFired
    | EndpointUnavailable(actionable: bool)
    | Stopped

  /** `request` with nothing running: the timer is cleared and a run is put behind the tail. */
  function Schedule(l: Loop): Loop
  {
    l.(timerActive := false, followup := false, running := Some(l.nextRun),
       runs := l.runs + [Run(l.nextRun, Scheduled)], nextRun := l.nextRun + 1)
  }

  function Request(l: Loop): Loop
  {
    if l.stopped then l
    else if l.running.Some? then l.(followup := true, waiting := l.waiting + 1, unserved := l.unserved + 1)
    else Schedule(l).(unserved := l.unserved + 1)
  }

  /** A pass begins: everything requested so far is served by it. */
  function Begin(l: Loop, i: nat, queuedBefore: bool): Loop
    requires i < |l.runs|
  {
    l.(runs := l.runs[i := l.runs[i].(phase := InPass(queuedBefore))], followup := false, unserved := 0)
  }

  function ArmTimer(l: Loop): Loop
  {
    if l.stopped || l.timerActive then l else l.(timerActive := true, retryAttempt := l.retryAttempt + 1)
  }

  function EndPass(l: Loop, i: nat, retry: bool): Loop
    requires i < |l.runs| && l.runs[i].phase.InPass?
  {
    var again := l.followup || l.runs[i].phase.queuedBefore;
    if again && !l.stopped then Begin(l.(ownedRetry := false), i, false)
    else
      var done := l.(ownedRetry := false, followup := again, runs := l.runs[i := l.runs[i].(phase := Finishing(false))]);
      if l.stopped then done
      else if retry then ArmTimer(done) else done.(timerActive := false, retryAttempt := 0)
  }

  function ThrowPass(l: Loop, i: nat, owned: bool): Loop
    requires i < |l.runs|
  {
    var done := l.(runs := l.runs[i := l.runs[i].(phase := Finishing(true))]);
    if !l.stopped && owned then ArmTimer(done.(ownedRetry := true)) else done
  }

  /** The retry that a pass armed when it threw: losing an endpoint does not clear it. */
  predicate Rearmed(l: Loop)
  {
    l.timerActive && l.ownedRetry
  }

  /** The run settles: its callers go on after a success and are rejected after a throw. */
  function Settle(l: Loop, i: nat): Loop
    requires i < |l.runs| && l.runs[i].phase.Finishing?
  {
    var threw := l.runs[i].phase.threw;
    l.(running := if l.running == Some(l.runs[i].id) then None else l.running,
       runs := l.runs[..i] + l.runs[i + 1..],
       resumable := l.resumable + if threw then 0 else l.waiting, waiting := 0)
  }

  /** A caller that found a run going looks again after it. */
  function Resume(l: Loop): Loop
    requires l.resumable > 0
  {
    var m := l.(resumable := l.resumable - 1);
    if l.stopped || !l.followup then m
    else if m.running.Some? then m.(waiting := m.waiting + 1)
    else Schedule(m)
  }

  function Stop(l: Loop): Loop
  {
    l.(stopped := true, ownedRetry := false, followup := false, timerActive := false, retryAttempt := 0)
  }

  predicate Enabled(l: Loop, ev: Event)
  {
    match ev
    // The tail makes a run wait for every run before it.
    case Began(i) => i < |l.runs| && l.runs[i].phase.Scheduled? && forall j :: 0 <= j < i ==> l.runs[j].phase.Finishing?
    case PassDone(i, _) => i < |l.runs| && l.runs[i].phase.InPass?
    case PassThrew(i, _) => i < |l.runs| && l.runs[i].phase.InPass?
    case Settled(i) => i < |l.runs| && l.runs[i].phase.Finishing?
    case Resumed => l.resumable > 0
    // A timer does not fire among the promise callbacks that settle a run.
    case TimerFired => l.timerActive && forall j :: 0 <= j < |l.runs| ==> !l.runs[j].phase.Finishing?
    case _ => true
  }

  function Next(l: Loop, ev: Event): Loop
    requires Enabled(l, ev)
  {
    match ev
    case Requested => Request(l)
    case Began(i) => Begin(l, i, l.followup)
    case PassDone(i, retry) => EndPass(l, i, retry)
    case PassThrew(i, owned) => ThrowPass(l, i, owned)
    case Settled(i) => Settle(l, i)
    case Resumed => Resume(l)
    case TimerFired => Request(l.(timerActive := false))
    case EndpointUnavailable(actionable) => if l.ownedRetry || actionable then l else l.(timerActive := false)
    case Stopped => if l.stopped then l else Stop(l)
  }

  ghost predicate Step(l: Loop, ev: Event, m: Loop)
  {
    Enabled(l, ev) && m == Next(l, ev)
  }

  ghost predicate Init(l: Loop)
  {
    l == Loop(None, [], 0, false, 0, 0, false, 0, false, false, 0)
  }

  // ---------------------------------------------------------------- the invariant

  /** One run at most, and it is the one that `running` names. */
  predicate OneRun(l: Loop)
  {
    |l.runs| <= 1 && (l.running.Some? <==> |l.runs| == 1) && (|l.runs| == 1 ==> l.running == Some(l.runs[0].id))
    && (l.waiting > 0 ==> |l.runs| == 1)
  }

  /** A pass threw, and its run has not settled. */
  predicate Thrown(l: Loop)
  {
    l.runs != [] && l.runs[0].phase == Finishing(true)
  }

  /** Something in the loop will still begin a pass for what it owes: a run, the retry of recovery's own
      operations, or a caller that goes on and looks again. */
  predicate Coming(l: Loop)
  {
    if l.runs == [] || Thrown(l) then Rearmed(l) || (l.followup && l.resumable > 0)
    else match l.runs[0].phase
      case Scheduled => true
      case InPass(_) => l.followup
      case Finishing(_) => l.followup && l.waiting + l.resumable > 0
  }

  predicate Owes(l: Loop)
  {
    l.unserved > 0 && !l.stopped
  }

  /** Requests are left that nothing will serve. */
  predicate Stranded(l: Loop)
  {
    Owes(l) && !Coming(l)
  }

  /** What is owed is asked for by `followup`, unless its run has not begun; only a throw strands it. */
  predicate Asked(l: Loop)
  {
    (Owes(l) ==> l.followup || (l.runs != [] && l.runs[0].phase.Scheduled?))
    && (Stranded(l) ==> l.runs == [] || Thrown(l))
  }

  predicate Inv(l: Loop)
  {
    OneRun(l) && Asked(l)
    && (l.stopped ==> !l.timerActive && !l.ownedRetry)
    && (l.timerActive && l.runs != [] ==> l.runs[0].phase.Finishing?)
  }

  lemma NextKeepsInv(l: Loop, ev: Event)
    requires Inv(l) && Enabled(l, ev)
    ensures Inv(Next(l, ev))
  {
  }

  lemma StepKeepsInv()
    ensures forall l :: Init(l) ==> Inv(l)
    ensures forall l, ev, m :: Inv(l) && Step(l, ev, m) ==> Inv(m)
  {
    forall l, ev, m | Inv(l) && Step(l, ev, m)
      ensures Inv(m)
    {
      NextKeepsInv(l, ev);
    }
  }

  lemma TraceKeepsInv(states: seq<Loop>, events: seq<Event>, i: nat)
    requires IsRun(Init, Step, states, events) && i < |states|
    ensures Inv(states[i])
  {
    StepKeepsInv();
    HoldsThroughout(Init, Step, Inv, states, events, i);
  }

  /** Passes never overlap. */
  lemma PassesNeverOverlap(states: seq<Loop>, events: seq<Event>, i: nat, a: nat, b: nat)
    requires IsRun(Init, Step, states, events) && i < |states|
    requires a < |states[i].runs| && b < |states[i].runs|
    requires states[i].runs[a].phase.InPass? && states[i].runs[b].phase.InPass?
    ensures a == b
  {
    TraceKeepsInv(states, events, i);
  }

  // ---------------------------------------------------------------- when a request is lost

  /** A pass ends in a throw while recovery owns nothing, with requests behind it and no caller that will
      look again; or, before the run of such a pass has settled, one more request comes, or the last such
      caller goes back to waiting for that run. */
  predicate Loses(l: Loop, ev: Event)
  {
    !l.stopped
    && match ev
      case PassThrew(_, owned) => !owned && l.unserved > 0 && l.resumable == 0
      case Requested => Thrown(l) && !Rearmed(l) && l.unserved == 0 && l.resumable == 0
      case Resumed => Thrown(l) && !Rearmed(l) && l.unserved > 0 && l.resumable == 1
      case _ => false
  }

  /** A request that finds nothing running, or an armed timer, begins a pass for what was lost too. */
  predicate Rescues(l: Loop, ev: Event)
  {
    (ev.Requested? && l.runs == []) || ev.TimerFired? || ev.Stopped?
  }

  lemma StrandedStep(l: Loop, ev: Event)
    requires Inv(l) && Enabled(l, ev)
    ensures Stranded(Next(l, ev)) <==> Loses(l, ev) || (Stranded(l) && !Rescues(l, ev))
  {
  }

  /** Over every run: requests are left unserved exactly from a step that loses them until one that begins
      a pass, or stops the loop. */
  lemma {:induction false} StrandedIff(states: seq<Loop>, events: seq<Event>, i: nat)
    requires IsRun(Init, Step, states, events) && i < |states|
    ensures Stranded(states[i]) <==>
      exists j :: 0 <= j < i && Loses(states[j], events[j]) && forall k :: j < k < i ==> !Rescues(states[k], events[k])
  {
    if i > 0 {
      var m := i - 1;
      StrandedIff(states, events, m);
      TraceKeepsInv(states, events, m);
      assert Step(states[m], events[m], states[m + 1]);
      StrandedStep(states[m], events[m]);
    }
  }

  /** A pass that throws, and then settles undisturbed, drops the requests queued behind it exactly when
      recovery owns nothing and no caller of an earlier run has still to look again. */
  lemma ThrowLosesIff(l: Loop, owned: bool)
    requires Inv(l) && !l.stopped && l.runs != [] && l.runs[0].phase.InPass?
    ensures var m := Next(Next(l, PassThrew(0, owned)), Settled(0));
      Stranded(m) <==> !owned && l.unserved > 0 && l.resumable == 0
  {
  }

  /** The sufficient condition in particular: passes throw only while recovery owns an operation. */
  predicate Harmless(ev: Event)
  {
    ev.PassThrew? ==> ev.owned
  }

  lemma HarmlessStays(l: Loop, ev: Event)
    requires Inv(l) && Enabled(l, ev) && Harmless(ev) && (Thrown(l) && !l.stopped ==> Rearmed(l))
    ensures Thrown(Next(l, ev)) && !Next(l, ev).stopped ==> Rearmed(Next(l, ev))
    ensures !Loses(l, ev)
  {
  }

  /** A loop that is still going owes no request without something that will begin a pass, in every
      run in which passes throw only while recovery owns an operation. */
  lemma {:induction false} NoRequestIsLost(states: seq<Loop>, events: seq<Event>, i: nat)
    requires IsRun(Init, Step, states, events) && i < |states|
    requires forall k :: 0 <= k < i ==> Harmless(events[k])
    ensures !Stranded(states[i]) && (Thrown(states[i]) && !states[i].stopped ==> Rearmed(states[i]))
    ensures Owes(states[i]) ==> Coming(states[i])
  {
    if i > 0 {
      var j := i - 1;
      assert Step(states[j], events[j], states[j + 1]);
      TraceKeepsInv(states, events, j);
      NoRequestIsLost(states, events, j);
      HarmlessStays(states[j], events[j]);
      StrandedStep(states[j], events[j]);
    }
  }

  /** Steps the loop takes by itself. */
  predicate Internal(ev: Event)
  {
    ev.Began? || ev.PassDone? || ev.Settled? || ev.Resumed? || ev.TimerFired?
  }

  /** How far a loop is from the pass it owes. */
  function Distance(l: Loop): nat
  {
    if l.runs == [] then 2 else if l.runs[0].phase.Finishing? then 3 else 1
  }

  lemma InternalStepIsNearer(l: Loop, ev: Event)
    requires Inv(l) && Owes(l) && !Stranded(l) && Internal(ev) && Enabled(l, ev) && !Loses(l, ev)
    ensures var m := Next(l, ev);
      m.unserved == 0 || Distance(m) < Distance(l) || (Distance(m) == Distance(l) && m.resumable < l.resumable)
  {
  }

  /** A loop that owes a pass and has lost nothing can take a step of its own that loses nothing, and each
      such step begins the pass or brings it nearer; what the outside does meanwhile never moves it
      further away. */
  lemma OwedPassComes(l: Loop)
    requires Inv(l) && Owes(l) && !Stranded(l)
    ensures exists ev :: Internal(ev) && Enabled(l, ev) && !Loses(l, ev)
    ensures forall ev :: Internal(ev) && Enabled(l, ev) && !Loses(l, ev) ==>
      var m := Next(l, ev);
      !Stranded(m)
      && (m.unserved == 0 || Distance(m) < Distance(l) || (Distance(m) == Distance(l) && m.resumable < l.resumable))
    ensures forall ev :: !Internal(ev) && !ev.PassThrew? && !ev.Stopped? && Enabled(l, ev) ==> Distance(Next(l, ev)) <= Distance(l)
  {
    var next := if l.runs == [] then (if l.resumable > 0 then Resumed else TimerFired)
      else match l.runs[0].phase case Scheduled => Began(0) case InPass(_) => PassDone(0, false) case Finishing(_) => Settled(0);
    assert Internal(next) && Enabled(l, next) && !Loses(l, next);
    forall ev | Internal(ev) && Enabled(l, ev) && !Loses(l, ev)
      ensures var m := Next(l, ev);
        !Stranded(m)
        && (m.unserved == 0 || Distance(m) < Distance(l) || (Distance(m) == Distance(l) && m.resumable < l.resumable))
    {
      StrandedStep(l, ev);
      InternalStepIsNearer(l, ev);
    }
  }

  /** The shortest run that loses a request: nothing is running, armed or left to look again. */
  lemma ThrowDropsQueued() returns (states: seq<Loop>, events: seq<Event>)
    ensures IsRun(Init, Step, states, events)
    ensures Stranded(states[|events|]) && states[|events|].runs == []
  {
    events := [Requested, Began(0), Requested, PassThrew(0, false), Settled(0)];
    var s0 := Loop(None, [], 0, false, 0, 0, false, 0, false, false, 0);
    var s1 := s0.(running := Some(0), runs := [Run(0, Scheduled)], nextRun := 1, unserved := 1);
    var s2 := s1.(runs := [Run(0, InPass(false))], unserved := 0);
    var s3 := s2.(followup := true, waiting := 1, unserved := 1);
    var s4 := s3.(runs := [Run(0, Finishing(true))]);
    var s5 := s4.(running := None, runs := [], waiting := 0);
    states := [s0, s1, s2, s3, s4, s5];
    assert Step(s0, events[0], s1) && Step(s1, events[1], s2) && Step(s2, events[2], s3);
    assert Step(s3, events[3], s4) && Step(s4, events[4], s5);
  }

  /** How a pass ends when nothing was requested meanwhile: one that asks for a retry leaves a timer armed,
      and one that does not leaves none and forgets the failed attempts so far. A pass that ends with a
      request behind it goes round again at once and leaves the timer to the next one. */
  lemma EndOfPass(l: Loop, i: nat, retry: bool)
    requires Inv(l) && !l.stopped && i < |l.runs| && l.runs[i].phase.InPass?
    ensures var m := EndPass(l, i, retry);
      if l.followup || l.runs[i].phase.queuedBefore then m.runs == [Run(l.runs[i].id, InPass(false))] && m.unserved == 0
      else m.runs == [Run(l.runs[i].id, Finishing(false))] && m.timerActive == retry
           && m.retryAttempt == if retry then l.retryAttempt + 1 else 0
  {
  }

  /** This step ends a pass with nothing queued behind it. */
  predicate EndsLast(l: Loop, ev: Event)
    requires Enabled(l, ev)
  {
    ev.PassDone? && !l.stopped && !l.followup && !l.runs[ev.i].phase.queuedBefore
  }

  /** The retry timer after any step. It is armed by a last pass that asks for a retry, and by a pass that
      throws while recovery owns an operation; a run that is put behind the tail clears it, and so does a
      lost endpoint unless the timer is such a throw's or some other target can still be acted on. */
  lemma TimerAfter(l: Loop, ev: Event)
    requires Inv(l) && Enabled(l, ev)
    ensures Next(l, ev).timerActive <==>
      match ev
      case Requested => l.timerActive && l.running.Some?
      case PassDone(_, retry) => EndsLast(l, ev) && retry
      case PassThrew(_, owned) => owned && !l.stopped
      case Resumed => l.timerActive && (l.running.Some? || !l.followup)
      case EndpointUnavailable(actionable) => l.timerActive && (l.ownedRetry || actionable)
      case TimerFired => false
      case Stopped => false
      case _ => l.timerActive
    ensures Next(l, ev).ownedRetry <==>
      match ev
      case PassDone(_, _) => false
      case PassThrew(_, owned) => !l.stopped && (owned || l.ownedRetry)
      case Stopped => false
      case _ => l.ownedRetry
  {
  }

  /** The exponent of the retry delay counts the timers that were armed since a last pass wanted none. */
  lemma RetryAttemptAfter(l: Loop, ev: Event)
    requires Inv(l) && Enabled(l, ev)
    ensures Next(l, ev).retryAttempt ==
      if ev == Stopped && !l.stopped then 0
      else if EndsLast(l, ev) && !ev.retry then 0
      else if !l.timerActive && Next(l, ev).timerActive then l.retryAttempt + 1
      else l.retryAttempt
  {
  }

  // ---------------------------------------------------------------- the fields in place

  class Reconciler {
    var running: Option<nat>
    var runs: seq<Run>
    var nextRun: nat
    var followupRequested: bool
    var waiting: nat
    var resumable: nat
    var retryTimerActive: bool
    var retryAttempt: nat
    var ownedPassFailureRetryActive: bool
    var stopped: bool
    ghost var unserved: nat

    ghost function View(): Loop
      reads this
    {
      Loop(running, runs, nextRun, followupRequested, waiting, resumable, retryTimerActive, retryAttempt,
           ownedPassFailureRetryActive, stopped, unserved)
    }

    constructor ()
      ensures Init(View())
    {
      running, runs, nextRun, followupRequested, waiting, resumable := None, [], 0, false, 0, 0;
      retryTimerActive, retryAttempt, ownedPassFailureRetryActive, stopped := false, 0, false, false;
      unserved := 0;
    }

    method ScheduleRun()
      modifies this`running, this`runs, this`nextRun, this`followupRequested, this`retryTimerActive
      ensures View() == Schedule(old(View()))
    {
      retryTimerActive, followupRequested := false, false;
      running, runs, nextRun := Some(nextRun), runs + [Run(nextRun, Scheduled)], nextRun + 1;
    }

    method RequestPass()
      modifies this
      ensures View() == Request(old(View()))
    {
      if stopped { return; }
      unserved := unserved + 1;
      if running.Some? {
        followupRequested, waiting := true, waiting + 1;
        return;
      }
      ScheduleRun();
    }

    method BeginRun(i: nat)
      requires i < |runs|
      modifies this
      ensures View() == Begin(old(View()), i, old(followupRequested))
    {
      runs := runs[i := runs[i].(phase := InPass(followupRequested))];
      followupRequested, unserved := false, 0;
    }

    method ArmRetryTimer()
      modifies this`retryTimerActive, this`retryAttempt
      ensures View() == ArmTimer(old(View()))
    {
      if stopped || retryTimerActive { return; }
      retryTimerActive, retryAttempt := true, retryAttempt + 1;
    }

    method FinishPass(i: nat, retry: bool)
      requires i < |runs| && runs[i].phase.InPass?
      modifies this
      ensures View() == EndPass(old(View()), i, retry)
    {
      ownedPassFailureRetryActive := false;
      if runs[i].phase.queuedBefore { followupRequested := true; }
      if followupRequested && !stopped {
        runs := runs[i := runs[i].(phase := InPass(false))];
        followupRequested, unserved := false, 0;
        return;
      }
      runs := runs[i := runs[i].(phase := Finishing(false))];
      if stopped { return; }
      if retry { ArmRetryTimer(); } else { retryTimerActive, retryAttempt := false, 0; }
    }

    method FailPass(i: nat, owned: bool)
      requires i < |runs|
      modifies this
      ensures View() == ThrowPass(old(View()), i, owned)
    {
      runs := runs[i := runs[i].(phase := Finishing(true))];
      if !stopped && owned {
        ownedPassFailureRetryActive := true;
        ArmRetryTimer();
      }
    }

    method SettleRun(i: nat)
      requires i < |runs| && runs[i].phase.Finishing?
      modifies this
      ensures View() == Settle(old(View()), i)
    {
      if running == Some(runs[i].id) { running := None; }
      if !runs[i].phase.threw { resumable := resumable + waiting; }
      waiting := 0;
      runs := runs[..i] + runs[i + 1..];
    }

    method ResumeCaller()
      requires resumable > 0
      modifies this
      ensures View() == Resume(old(View()))
    {
      resumable := resumable - 1;
      if stopped || !followupRequested { return; }
      if running.Some? { waiting := waiting + 1; } else { ScheduleRun(); }
    }

    method StopLoop()
      modifies this
      ensures View() == if old(stopped) then old(View()) else Stop(old(View()))
    {
      if stopped { return; }
      stopped, ownedPassFailureRetryActive, followupRequested := true, false, false;
      retryTimerActive, retryAttempt := false, 0;
    }
  }
}

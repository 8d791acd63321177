/**
 Admission before a start (`beforeStartAdmission`): the probe that `pump` launches, the grant it leaves
 and the timer after a refusal, over the traffic of `SubmissionGate`.
 */
module AdmissionGate {
  import opened Common
  import opened Runs
  import opened SubmissionGate

  const PROBE := Flight(Admission, false)

  /** How many probes are awaited. */
  function Probes(flights: seq<Flight>): nat
  {
    if flights == [] then 0 else Probes(flights[..|flights| - 1]) + if flights[|flights| - 1] == PROBE then 1 else 0
  }

  /** The admission of the next start is awaited, granted, refused for now, or not asked for. */
  predicate OneStage(g: Gate)
  {
    !g.stopped ==>
      Probes(g.flights) == (if g.admissionInFlight then 1 else 0)
      && !(g.admissionInFlight && g.admissionGranted) && !(g.admissionInFlight && g.admissionTimer)
      && !(g.admissionGranted && g.admissionTimer)
  }

  lemma {:induction false} ProbesConcat(a: seq<Flight>, b: seq<Flight>)
    ensures Probes(a + b) == Probes(a) + Probes(b)
  {
    if b == [] {
      assert a + b == a;
    } else {
      assert (a + b)[..|a + b| - 1] == a + b[..|b| - 1];
      ProbesConcat(a, b[..|b| - 1]);
    }
  }

  lemma OneProbe(f: Flight)
    ensures Probes([f]) == if f == PROBE then 1 else 0
  {
    assert [f][..0] == [];
  }

  lemma ProbesSplit(flights: seq<Flight>, i: nat)
    requires i < |flights|
    ensures Probes(flights) == Probes(flights[..i]) + (if flights[i] == PROBE then 1 else 0) + Probes(flights[i + 1..])
  {
    assert flights == flights[..i] + [flights[i]] + flights[i + 1..];
    ProbesConcat(flights[..i], [flights[i]]);
    ProbesConcat(flights[..i] + [flights[i]], flights[i + 1..]);
    OneProbe(flights[i]);
  }

  lemma HandledProbes(flights: seq<Flight>, i: nat)
    requires i < |flights|
    ensures Probes(Handled(flights, i)) == Probes(flights) - if flights[i] == PROBE then 1 else 0
  {
    var after := Handled(flights, i);
    ProbesSplit(flights, i);
    ProbesSplit(after, i);
    assert after[..i] == flights[..i] && after[i + 1..] == flights[i + 1..];
  }

  lemma LaunchedProbes(g: Gate, kind: Kind)
    ensures Probes(g.flights + [Flight(kind, false)]) == Probes(g.flights) + if kind.Admission? then 1 else 0
  {
    ProbesConcat(g.flights, [Flight(kind, false)]);
    OneProbe(Flight(kind, false));
  }

  /** The probe is neither asked for nor answered: its grant may be spent, and another flight launched. */
  predicate LeavesProbe(g: Gate, h: Gate)
  {
    h.stopped == g.stopped && h.admissionInFlight == g.admissionInFlight && h.admissionTimer == g.admissionTimer
    && (h.admissionGranted ==> g.admissionGranted) && Probes(h.flights) == Probes(g.flights)
  }

  /** A probe is asked for. */
  predicate AsksProbe(g: Gate, h: Gate)
  {
    h.stopped == g.stopped && h.admissionInFlight && !g.admissionInFlight && !g.admissionGranted && !g.admissionTimer
    && !h.admissionGranted && !h.admissionTimer && Probes(h.flights) == Probes(g.flights) + 1
  }

  lemma LeftKeepsStage(g: Gate, h: Gate)
    requires OneStage(g) && (LeavesProbe(g, h) || AsksProbe(g, h))
    ensures OneStage(h)
  {
  }

  lemma NativeLeavesProbe(g: Gate, kind: Kind)
    requires kind.Start? || kind.Steer?
    ensures LeavesProbe(g, LaunchNative(g, kind))
  {
    LaunchedProbes(g, kind);
  }

  lemma StartLeavesProbe(g: Gate, id: AttemptId)
    ensures LeavesProbe(g, LaunchStart(g, id))
  {
    NativeLeavesProbe(g.(inFlightStart := Some(id)), Start(id));
  }

  lemma AskingAsksProbe(g: Gate)
    requires !g.admissionTimer && !g.admissionInFlight && !g.admissionGranted
    ensures AsksProbe(g, Launch(g.(admissionInFlight := true), Admission))
  {
    LaunchedProbes(g, Admission);
  }

  lemma AdmittedLeavesProbe(g: Gate, choice: Choice)
    requires choice.candidate && !(choice.admissionRequired && !g.admissionGranted)
    ensures LeavesProbe(g, PumpStart(g, choice))
  {
    if choice.created.Some? {
      StartLeavesProbe(g.(admissionGranted := false, current := Some(Current(choice.created.value, false, true)), nativeBusy := true),
                       choice.created.value);
    }
  }

  lemma PumpStartMoves(g: Gate, choice: Choice)
    ensures LeavesProbe(g, PumpStart(g, choice)) || AsksProbe(g, PumpStart(g, choice))
  {
    if choice.candidate {
      if !(choice.admissionRequired && !g.admissionGranted) {
        AdmittedLeavesProbe(g, choice);
      } else if !g.admissionTimer && !g.admissionInFlight {
        AskingAsksProbe(g);
      } else {
        assert PumpStart(g, choice) == g;
      }
    }
  }

  lemma PumpSteerMoves(g: Gate, attempt: Current, choice: Choice)
    ensures LeavesProbe(g, PumpSteer(g, attempt, choice))
  {
    NativeLeavesProbe(g, Steer(attempt.id));
  }

  lemma PumpMoves(g: Gate, choice: Choice)
    ensures LeavesProbe(g, Pump(g, choice)) || AsksProbe(g, Pump(g, choice))
  {
    var before := g.(skipped := false);
    PumpStartMoves(before, choice);
    if g.current.Some? { PumpSteerMoves(before, g.current.value, choice); }
    var h := Pump(g, choice);
    assert h == g || h == g.(skipped := true) || h == before || h == PumpStart(before, choice)
      || (g.current.Some? && h == PumpSteer(before, g.current.value, choice));
  }

  lemma PumpKeepsStage(g: Gate, choice: Choice)
    requires OneStage(g)
    ensures OneStage(Pump(g, choice))
  {
    PumpMoves(g, choice);
    LeftKeepsStage(g, Pump(g, choice));
  }

  lemma SettleAdmissionKeepsStage(g: Gate, i: nat, ok: bool)
    requires OneStage(g) && !g.stopped && i < |g.flights| && g.flights[i] == PROBE
    ensures OneStage(SettleAdmission(g, i, ok))
    ensures var h := SettleAdmission(g, i, ok);
      h.admissionGranted == ok && h.admissionTimer == !ok && !h.admissionInFlight && Probes(h.flights) == 0
  {
    ProbesSplit(g.flights, i);
    HandledProbes(g.flights, i);
  }

  lemma AnswerKeepsStage(g: Gate, i: nat, effects: Effects, reread: bool)
    requires OneStage(g) && i < |g.flights| && g.flights[i] != PROBE
    ensures var settled := SettleAnswer(g, i, effects); OneStage(if reread then Launch(settled, Read) else settled)
  {
    HandledProbes(g.flights, i);
    LaunchedProbes(SettleAnswer(g, i, effects), Read);
  }

  lemma SettleKeepsStage(g: Gate, i: nat, ok: bool, effects: Effects, reread: bool, pump: bool, choice: Choice)
    requires OneStage(g) && i < |g.flights| && !g.flights[i].handled
    ensures OneStage(Settle(g, i, ok, effects, reread, pump, choice))
  {
    if !g.stopped && g.flights[i].kind.Admission? {
      SettleAdmissionKeepsStage(g, i, ok);
    } else if !g.stopped {
      AnswerKeepsStage(g, i, effects, reread);
      var settled := SettleAnswer(g, i, effects);
      PumpKeepsStage(if reread then Launch(settled, Read) else settled, choice);
    }
  }

  lemma FinishKeepsStage(g: Gate, i: nat)
    requires OneStage(g) && i < |g.flights| && g.flights[i].handled
    ensures OneStage(Finally(g, i))
  {
    ProbesSplit(g.flights, i);
    ProbesConcat(g.flights[..i], g.flights[i + 1..]);
  }

  lemma NextKeepsStage(g: Gate, ev: Event)
    requires OneStage(g) && Enabled(g, ev)
    ensures OneStage(Next(g, ev))
  {
    match ev
    case Pumped(queued, choice) => PumpKeepsStage(Dequeued(g, queued), choice);
    case Settled(i, ok, effects, reread, pump, choice) => SettleKeepsStage(g, i, ok, effects, reread, pump, choice);
    case Finished(i) => FinishKeepsStage(g, i);
    case _ => PlainKeepsStage(g, ev);
  }

  lemma PlainKeepsStage(g: Gate, ev: Event)
    requires OneStage(g) && Enabled(g, ev) && (ev.Notified? || ev.AdmissionRetry? || ev.Recovered? || ev.Stopped?)
    ensures OneStage(Next(g, ev))
  {
    LaunchedProbes(g, Read);
  }

  /** Over every run of a dispatcher that is not stopped: at most one probe is awaited, exactly while the flag
      says so, and a probe, a grant and a retry timer never stand side by side. */
  lemma {:induction false} AdmissionStages(states: seq<Gate>, events: seq<Event>, i: nat)
    requires IsRun(Init, Step, states, events) && i < |states|
    ensures OneStage(states[i])
    ensures !states[i].stopped ==> (states[i].admissionInFlight <==> PROBE in states[i].flights)
  {
    if i > 0 {
      AdmissionStages(states, events, i - 1);
      assert Step(states[i - 1], events[i - 1], states[i - 1 + 1]);
      NextKeepsStage(states[i - 1], events[i - 1]);
    }
    ProbeIsCounted(states[i].flights);
  }

  lemma {:induction false} ProbeIsCounted(flights: seq<Flight>)
    ensures Probes(flights) > 0 <==> PROBE in flights
  {
    if flights != [] {
      var last := |flights| - 1;
      ProbeIsCounted(flights[..last]);
      assert flights == flights[..last] + [flights[last]];
    }
  }

  /** A candidate that needs admission and has none is never left without a wake-up: a pump that is free to
      start asks for the admission, unless it is already asked for or a refusal has armed the timer. It
      starts nothing, and asks at most once. */
  lemma UnadmittedPumpAsks(g: Gate, choice: Choice)
    requires Counted(g) && !g.stopped && g.flights == [] && !g.pumpPaused && g.current.None? && !g.nativeBusy
    requires choice.candidate && choice.admissionRequired && !g.admissionGranted
    ensures var h := Pump(g, choice);
      (h.admissionInFlight || h.admissionTimer) && h.current.None? && !h.nativeBusy
      && h.flights == if g.admissionTimer || g.admissionInFlight then [] else [PROBE]
  {
  }

  /** The answer of a probe grants one start, or arms the timer that pumps again. */
  lemma ProbeAnswered(g: Gate, i: nat, ok: bool, effects: Effects, reread: bool, pump: bool, choice: Choice)
    requires OneStage(g) && !g.stopped && i < |g.flights| && g.flights[i] == PROBE
    ensures var h := Settle(g, i, ok, effects, reread, pump, choice);
      h.admissionGranted == ok && h.admissionTimer == !ok && !h.admissionInFlight && Probes(h.flights) == 0
      && Enabled(h.(admissionTimer := true), AdmissionRetry)
      && Next(h.(admissionTimer := true), AdmissionRetry).queuedPumps == h.queuedPumps + 1
  {
    SettleAdmissionKeepsStage(g, i, ok);
  }

  // ---------------------------------------------------------------- no start without a grant

  /** A start has been launched between the two states. */
  predicate StartsBetween(g: Gate, h: Gate)
  {
    exists f <- h.flights :: f.kind.Start? && !f.handled && f !in g.flights
  }

  /** The answer of a probe that grants. */
  predicate Grants(g: Gate, ev: Event)
  {
    ev.Settled? && ev.ok && !g.stopped && ev.flight < |g.flights| && g.flights[ev.flight].kind.Admission?
  }

  predicate AsksAdmission(ev: Event)
  {
    match ev
    case Pumped(_, choice) => choice.admissionRequired
    case Settled(_, _, _, _, _, choice) => choice.admissionRequired
    case _ => true
  }

  function StartsUpTo(states: seq<Gate>, n: nat): nat
    requires n < |states|
  {
    if n == 0 then 0 else StartsUpTo(states, n - 1) + if StartsBetween(states[n - 1], states[n]) then 1 else 0
  }

  function GrantsUpTo(states: seq<Gate>, events: seq<Event>, n: nat): nat
    requires n <= |events| && n < |states|
  {
    if n == 0 then 0 else GrantsUpTo(states, events, n - 1) + if Grants(states[n - 1], events[n - 1]) then 1 else 0
  }

  function One(b: bool): nat
  {
    if b then 1 else 0
  }

  lemma AdmittedSpendsGrant(g: Gate, choice: Choice)
    requires choice.candidate && g.admissionGranted
    ensures !PumpStart(g, choice).admissionGranted
  {
  }

  lemma UnadmittedStartsNothing(g: Gate, choice: Choice)
    requires g.flights == [] && choice.admissionRequired && (!choice.candidate || !g.admissionGranted)
    ensures var h := PumpStart(g, choice); h.admissionGranted == g.admissionGranted && !StartsBetween(g, h)
  {
    assert PumpStart(g, choice) == g || PumpStart(g, choice) == Launch(g.(admissionInFlight := true), Admission);
  }

  lemma PumpStartSpendsGrant(g: Gate, choice: Choice)
    requires g.flights == [] && choice.admissionRequired
    ensures var h := PumpStart(g, choice); One(h.admissionGranted) + One(StartsBetween(g, h)) <= One(g.admissionGranted)
  {
    if choice.candidate && g.admissionGranted { AdmittedSpendsGrant(g, choice); } else { UnadmittedStartsNothing(g, choice); }
  }

  lemma PumpSteerSpendsNothing(g: Gate, attempt: Current, choice: Choice)
    requires g.flights == []
    ensures var h := PumpSteer(g, attempt, choice); h.admissionGranted == g.admissionGranted && !StartsBetween(g, h)
  {
  }

  lemma PumpSpendsGrant(g: Gate, choice: Choice)
    requires Counted(g) && choice.admissionRequired
    ensures var h := Pump(g, choice); One(h.admissionGranted) + One(StartsBetween(g, h)) <= One(g.admissionGranted)
  {
    var h, before := Pump(g, choice), g.(skipped := false);
    if h.flights == g.flights && h.admissionGranted == g.admissionGranted {
    } else {
      assert g.flights == [] && g.networkCount == 0;
      PumpStartSpendsGrant(before, choice);
      if g.current.Some? { PumpSteerSpendsNothing(before, g.current.value, choice); }
      assert StartsBetween(g, h) <==> StartsBetween(before, h);
    }
  }

  lemma SettleStartsNothing(g: Gate, ev: Event)
    requires Inv(g) && Enabled(g, ev) && ev.Settled?
    ensures !StartsBetween(g, Next(g, ev))
  {
    forall f | f in Next(g, ev).flights && f.kind.Start? && !f.handled
      ensures f in g.flights
    {
      SettleLaunchesNoNative(g, ev.flight, ev.ok, ev.effects, ev.reread, ev.pump, ev.choice, f);
    }
  }

  lemma AnswerKeepsGrant(g: Gate, i: nat, effects: Effects, reread: bool, pump: bool, choice: Choice)
    requires g.networkCount > 0 && i < |g.flights|
    ensures var settled := SettleAnswer(g, i, effects);
      var again := if reread then Launch(settled, Read) else settled;
      (if pump then Pump(again, choice) else again).admissionGranted == g.admissionGranted
  {
    AnswerAddsAtMostARead(g, i, effects, reread);
  }

  lemma SettleGrants(g: Gate, ev: Event)
    requires Inv(g) && Enabled(g, ev) && ev.Settled?
    ensures One(Next(g, ev).admissionGranted) <= One(g.admissionGranted) + One(Grants(g, ev))
  {
    if !g.stopped && !g.flights[ev.flight].kind.Admission? {
      AnswerKeepsGrant(g, ev.flight, ev.effects, ev.reread, ev.pump, ev.choice);
    }
  }

  lemma PumpedSpendsGrant(g: Gate, queued: bool, choice: Choice)
    requires Inv(g) && Enabled(g, Pumped(queued, choice)) && choice.admissionRequired
    ensures var h := Pump(Dequeued(g, queued), choice); One(h.admissionGranted) + One(StartsBetween(g, h)) <= One(g.admissionGranted)
  {
    var d := Dequeued(g, queued);
    SameCounters(g, d);
    PumpSpendsGrant(d, choice);
    assert StartsBetween(d, Pump(d, choice)) <==> StartsBetween(g, Pump(d, choice));
  }

  lemma PlainGrants(g: Gate, ev: Event)
    requires Enabled(g, ev) && !ev.Pumped? && !ev.Settled?
    ensures !StartsBetween(g, Next(g, ev)) && Next(g, ev).admissionGranted == g.admissionGranted
  {
    forall f | f in Next(g, ev).flights && IsNative(f)
      ensures f in g.flights
    {
      OthersLaunchNothing(g, ev, f);
    }
  }

  lemma GrantStep(g: Gate, ev: Event)
    requires Inv(g) && Enabled(g, ev) && AsksAdmission(ev)
    ensures var h := Next(g, ev);
      One(h.admissionGranted) + One(StartsBetween(g, h)) <= One(g.admissionGranted) + One(Grants(g, ev))
  {
    if ev.Pumped? {
      PumpedSpendsGrant(g, ev.queued, ev.choice);
    } else if ev.Settled? {
      SettleStartsNothing(g, ev);
      SettleGrants(g, ev);
    } else {
      PlainGrants(g, ev);
    }
  }

  /** Over every run in which starts need admission: no more starts are launched than probes were granted. */
  lemma {:induction false} StartsAreAdmitted(states: seq<Gate>, events: seq<Event>, n: nat)
    requires IsRun(Init, Step, states, events) && n < |states|
    requires forall k :: 0 <= k < n ==> AsksAdmission(events[k])
    ensures StartsUpTo(states, n) + One(states[n].admissionGranted) <= GrantsUpTo(states, events, n)
  {
    if n > 0 {
      StartsAreAdmitted(states, events, n - 1);
      TraceKeepsInv(states, events, n - 1);
      assert Step(states[n - 1], events[n - 1], states[n - 1 + 1]);
      GrantStep(states[n - 1], events[n - 1]);
    }
  }
}

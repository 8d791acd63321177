/**
 How `ConversationDispatcher` keeps one native submission in flight: the counters around `launch`,
 the `pump` guard and the in-flight start marker. What reconciliation and notifications write to
 the current attempt is left arbitrary, so the results hold whatever they decide.
 */
module SubmissionGate {
  import opened Common
  import opened Runs

  type AttemptId = nat

  datatype Current = Current(id: AttemptId, bound: bool, accepting: bool)
  datatype Kind = Start(attempt: AttemptId) | Steer(attempt: AttemptId) | Admission | Read

  /** A promise given to `launch`: its handler has run or not; it leaves the table in `finally`. */
  datatype Flight = Flight(kind: Kind, handled: bool)

  datatype Gate = Gate(
    stopped: bool,
    current: Option<Current>,
    nativeBusy: bool,
    pumpPaused: bool,
    steeringPaused: bool,
    networkCount: int,
    nativeSubmissionCount: int,
    attemptCounts: map<AttemptId, int>,
    inFlightStart: Option<AttemptId>,
    admissionInFlight: bool,
    admissionGranted: bool,
    admissionTimer: bool,
    queuedPumps: nat,
    skipped: bool,
    startConflict: bool,
    flights: seq<Flight>)

  /** What the store, the scheduler and the admission hook answer during one `pump`. */
  datatype Choice = Choice(candidate: bool, admissionRequired: bool, created: Option<AttemptId>, reserved: bool, steer: bool)

  /** What a handler leaves in the fields that reconciliation and notifications decide. */
  datatype Effects = Effects(current: Option<Current>, nativeBusy: bool, pumpPaused: bool, steeringPaused: bool)

  predicate IsNative(f: Flight)
  {
    f.kind.Start? || f.kind.Steer?
  }

  function CountOf(counts: map<AttemptId, int>, id: AttemptId): int
  {
    if id in counts then counts[id] else 0
  }

  function Apply(g: Gate, effects: Effects): Gate
  {
    g.(current := effects.current, nativeBusy := effects.nativeBusy, pumpPaused := effects.pumpPaused,
       steeringPaused := effects.steeringPaused)
  }

  // ---------------------------------------------------------------- launching

  function Launch(g: Gate, kind: Kind): Gate
  {
    g.(networkCount := g.networkCount + 1, flights := g.flights + [Flight(kind, false)])
  }

  /** `trackNativeSubmission` inside `launch`. */
  function LaunchNative(g: Gate, kind: Kind): Gate
    requires kind.Start? || kind.Steer?
  {
    Launch(g.(nativeSubmissionCount := g.nativeSubmissionCount + 1,
              attemptCounts := g.attemptCounts[kind.attempt := CountOf(g.attemptCounts, kind.attempt) + 1]), kind)
  }

  /** `startConflict` records the throw "another assistant start is already in flight". */
  function LaunchStart(g: Gate, id: AttemptId): Gate
  {
    if g.inFlightStart.Some? && g.inFlightStart.value != id then g.(startConflict := true)
    else LaunchNative(g.(inFlightStart := Some(id)), Start(id))
  }

  function PumpStart(g: Gate, choice: Choice): Gate
  {
    if !choice.candidate then g
    else if choice.admissionRequired && !g.admissionGranted then
      if g.admissionTimer || g.admissionInFlight then g else Launch(g.(admissionInFlight := true), Admission)
    else
      var h := g.(admissionGranted := false);
      if choice.created.None? then h
      else if !choice.reserved then h.(current := None, nativeBusy := false)
      else LaunchStart(h.(current := Some(Current(choice.created.value, false, true)), nativeBusy := true), choice.created.value)
  }

  function PumpSteer(g: Gate, attempt: Current, choice: Choice): Gate
  {
    if !attempt.bound || !attempt.accepting || g.steeringPaused || !choice.steer then g
    else LaunchNative(g, Steer(attempt.id))
  }

  function Pump(g: Gate, choice: Choice): Gate
  {
    if g.stopped then g
    else if g.networkCount > 0 then g.(skipped := true)
    else
      var h := g.(skipped := false);
      if h.pumpPaused || (h.nativeBusy && h.current.None?) then h
      else if h.current.None? then PumpStart(h, choice)
      else PumpSteer(h, h.current.value, choice)
  }

  // ---------------------------------------------------------------- settling

  function Handled(flights: seq<Flight>, i: nat): seq<Flight>
    requires i < |flights|
  {
    flights[i := Flight(flights[i].kind, true)]
  }

  /** The handler of an admission promise. */
  function SettleAdmission(g: Gate, i: nat, ok: bool): Gate
    requires i < |g.flights|
  {
    g.(flights := Handled(g.flights, i), admissionInFlight := false,
       admissionGranted := g.admissionGranted || ok, admissionTimer := g.admissionTimer || !ok)
  }

  /** The handler of a start, a steer or a read: only a start clears the marker. */
  function SettleAnswer(g: Gate, i: nat, effects: Effects): Gate
    requires i < |g.flights|
  {
    var kind := g.flights[i].kind;
    Apply(g.(flights := Handled(g.flights, i),
             inFlightStart := if kind.Start? && g.inFlightStart == Some(kind.attempt) then None else g.inFlightStart), effects)
  }

  /** The posted success or failure handler of one flight; it may read the thread again and pump. */
  function Settle(g: Gate, i: nat, ok: bool, effects: Effects, reread: bool, pump: bool, choice: Choice): Gate
    requires i < |g.flights|
  {
    if g.stopped then g.(flights := Handled(g.flights, i))
    else if g.flights[i].kind.Admission? then SettleAdmission(g, i, ok)
    else
      var settled := SettleAnswer(g, i, effects);
      var again := if reread then Launch(settled, Read) else settled;
      if pump then Pump(again, choice) else again
  }

  function FinishNative(g: Gate, id: AttemptId): Gate
  {
    var remaining := Max(0, CountOf(g.attemptCounts, id) - 1);
    g.(nativeSubmissionCount := Max(0, g.nativeSubmissionCount - 1),
       attemptCounts := if remaining > 0 then g.attemptCounts[id := remaining] else g.attemptCounts - {id})
  }

  function Finally(g: Gate, i: nat): Gate
    requires i < |g.flights|
  {
    var f := g.flights[i];
    var h := if IsNative(f) then FinishNative(g, f.kind.attempt) else g;
    h.(flights := g.flights[..i] + g.flights[i + 1..], networkCount := g.networkCount - 1,
       queuedPumps := g.queuedPumps + if g.networkCount == 1 && !g.stopped then 1 else 0)
  }

  // ---------------------------------------------------------------- runs

  datatype Event =
    | Notified(effects: Effects)
    | Pumped(queued: bool, choice: Choice)
    | AdmissionRetry
    | Recovered
    | Settled(flight: nat, ok: bool, effects: Effects, reread: bool, pump: bool, choice: Choice)
    | Finished(flight: nat)
    | Stopped

  ghost predicate Init(g: Gate)
  {
    g == Gate(false, None, false, false, false, 0, 0, map[], None, false, false, false, 0, false, false, [])
  }

  predicate Enabled(g: Gate, ev: Event)
  {
    match ev
    case Pumped(queued, _) => queued ==> g.queuedPumps > 0
    case AdmissionRetry => g.admissionTimer
    case Settled(i, _, _, _, _, _) => i < |g.flights| && !g.flights[i].handled
    case Finished(i) => i < |g.flights| && g.flights[i].handled
    case _ => true
  }

  function Dequeued(g: Gate, queued: bool): Gate
    requires queued ==> g.queuedPumps > 0
  {
    if queued then g.(queuedPumps := g.queuedPumps - 1) else g
  }

  function Next(g: Gate, ev: Event): Gate
    requires Enabled(g, ev)
  {
    match ev
    case Notified(effects) => Apply(g, effects)
    case Pumped(queued, choice) => Pump(Dequeued(g, queued), choice)
    case AdmissionRetry => g.(admissionTimer := false, queuedPumps := g.queuedPumps + if g.stopped then 0 else 1)
    case Recovered => if g.nativeSubmissionCount > 0 then g else Launch(g.(pumpPaused := false), Read)
    case Settled(i, ok, effects, reread, pump, choice) => Settle(g, i, ok, effects, reread, pump, choice)
    case Finished(i) => Finally(g, i)
    case Stopped => g.(stopped := true, inFlightStart := None, admissionTimer := false)
  }

  ghost predicate Step(g: Gate, ev: Event, h: Gate)
  {
    Enabled(g, ev) && h == Next(g, ev)
  }

  // ---------------------------------------------------------------- the invariant

  /** How many native submissions are in flight. */
  function Natives(flights: seq<Flight>): nat
  {
    if flights == [] then 0
    else Natives(flights[1..]) + if IsNative(flights[0]) then 1 else 0
  }

  function NativesOf(flights: seq<Flight>, id: AttemptId): nat
  {
    if flights == [] then 0
    else NativesOf(flights[1..], id) + if IsNative(flights[0]) && flights[0].kind.attempt == id then 1 else 0
  }

  predicate Awaited(flights: seq<Flight>, id: AttemptId)
  {
    Flight(Start(id), false) in flights
  }

  ghost predicate Counted(g: Gate)
  {
    && g.networkCount == |g.flights|
    && g.nativeSubmissionCount == Natives(g.flights) <= 1
    && (forall id: AttemptId :: CountOf(g.attemptCounts, id) == NativesOf(g.flights, id))
    && (forall id: AttemptId :: id in g.attemptCounts ==> g.attemptCounts[id] > 0)
    && (!g.stopped ==> forall id: AttemptId :: g.inFlightStart == Some(id) <==> Awaited(g.flights, id))
    && !g.startConflict
  }

  ghost predicate Inv(g: Gate)
  {
    Counted(g) && (g.skipped ==> g.stopped || g.networkCount > 0 || g.queuedPumps > 0)
  }

  lemma {:induction false} NativesConcat(a: seq<Flight>, b: seq<Flight>, id: AttemptId)
    ensures Natives(a + b) == Natives(a) + Natives(b)
    ensures NativesOf(a + b, id) == NativesOf(a, id) + NativesOf(b, id)
  {
    if a == [] {
      assert a + b == b;
    } else {
      assert (a + b)[1..] == a[1..] + b;
      NativesConcat(a[1..], b, id);
    }
  }

  function One(f: Flight): nat
  {
    if IsNative(f) then 1 else 0
  }

  function OneOf(f: Flight, id: AttemptId): nat
  {
    if IsNative(f) && f.kind.attempt == id then 1 else 0
  }

  lemma Split(flights: seq<Flight>, i: nat, id: AttemptId)
    requires i < |flights|
    ensures Natives(flights) == Natives(flights[..i]) + One(flights[i]) + Natives(flights[i + 1..])
    ensures NativesOf(flights, id) == NativesOf(flights[..i], id) + OneOf(flights[i], id) + NativesOf(flights[i + 1..], id)
  {
    assert flights == flights[..i] + ([flights[i]] + flights[i + 1..]);
    NativesConcat([flights[i]], flights[i + 1..], id);
    NativesConcat(flights[..i], [flights[i]] + flights[i + 1..], id);
  }

  /** A counted submission is one in flight. */
  lemma {:induction false} NativeIsCounted(flights: seq<Flight>, i: nat)
    requires i < |flights| && IsNative(flights[i])
    ensures Natives(flights) > 0 && NativesOf(flights, flights[i].kind.attempt) > 0
  {
    Split(flights, i, flights[i].kind.attempt);
  }

  lemma TwoNatives(flights: seq<Flight>, i: nat, j: nat)
    requires i < j < |flights| && IsNative(flights[i]) && IsNative(flights[j])
    ensures Natives(flights) >= 2
  {
    Split(flights, i, 0);
    NativeIsCounted(flights[i + 1..], j - i - 1);
  }

  lemma {:induction false} NoNatives(flights: seq<Flight>, id: AttemptId)
    requires Natives(flights) == 0
    ensures NativesOf(flights, id) == 0
  {
    if flights != [] { NoNatives(flights[1..], id); }
  }

  lemma LaunchKeepsCounted(g: Gate, kind: Kind)
    requires Counted(g) && (kind.Read? || kind.Admission?)
    ensures Counted(Launch(g, kind))
  {
    var added := [Flight(kind, false)];
    forall id: AttemptId
      ensures NativesOf(g.flights + added, id) == NativesOf(g.flights, id)
    {
      NativesConcat(g.flights, added, id);
    }
    NativesConcat(g.flights, added, 0);
    assert forall id: AttemptId :: Awaited(g.flights + added, id) <==> Awaited(g.flights, id);
  }

  lemma NothingAwaited(g: Gate)
    requires Counted(g) && g.flights == [] && !g.stopped
    ensures g.inFlightStart.None?
  {
    assert forall id: AttemptId :: g.inFlightStart == Some(id) ==> Awaited(g.flights, id);
  }

  lemma LaunchStartKeepsCounted(g: Gate, id: AttemptId)
    requires Counted(g) && g.flights == [] && !g.stopped
    ensures Counted(LaunchStart(g, id)) && LaunchStart(g, id) == LaunchNative(g.(inFlightStart := Some(id)), Start(id))
  {
    NothingAwaited(g);
    var h := LaunchStart(g, id);
    assert h.flights == [Flight(Start(id), false)];
    assert forall other: AttemptId :: Awaited(h.flights, other) <==> other == id;
  }

  lemma LaunchSteerKeepsCounted(g: Gate, id: AttemptId)
    requires Counted(g) && g.flights == []
    ensures Counted(LaunchNative(g, Steer(id)))
  {
    var h := LaunchNative(g, Steer(id));
    assert h.flights == [Flight(Steer(id), false)];
    assert forall other: AttemptId :: !Awaited(g.flights, other) && !Awaited(h.flights, other);
  }

  lemma PumpStartKeepsCounted(g: Gate, choice: Choice)
    requires Counted(g) && g.flights == [] && !g.stopped
    ensures Counted(PumpStart(g, choice)) && PumpStart(g, choice).skipped == g.skipped
  {
    if choice.candidate {
      if choice.admissionRequired && !g.admissionGranted {
        SameCounters(g, g.(admissionInFlight := true));
        LaunchKeepsCounted(g.(admissionInFlight := true), Admission);
      } else if choice.created.Some? && choice.reserved {
        var h := g.(admissionGranted := false, current := Some(Current(choice.created.value, false, true)), nativeBusy := true);
        SameCounters(g, h);
        LaunchStartKeepsCounted(h, choice.created.value);
      } else {
        SameCounters(g, PumpStart(g, choice));
      }
    }
  }

  /** The invariant does not look at the fields that handlers write freely. */
  lemma SameCounters(g: Gate, h: Gate)
    requires Counted(g) && h == g.(current := h.current, nativeBusy := h.nativeBusy, pumpPaused := h.pumpPaused,
      steeringPaused := h.steeringPaused, admissionInFlight := h.admissionInFlight, admissionGranted := h.admissionGranted,
      admissionTimer := h.admissionTimer, queuedPumps := h.queuedPumps, skipped := h.skipped)
    ensures Counted(h)
  {
  }

  lemma PumpGivesInv(g: Gate, choice: Choice)
    requires Counted(g) && (g.stopped ==> Inv(g))
    ensures Inv(Pump(g, choice))
  {
    if !g.stopped && g.networkCount == 0 {
      var h := g.(skipped := false);
      SameCounters(g, h);
      PumpStartKeepsCounted(h, choice);
      if h.current.Some? { LaunchSteerKeepsCounted(h, h.current.value.id); }
    }
  }

  lemma HandledCounts(flights: seq<Flight>, i: nat, id: AttemptId)
    requires i < |flights|
    ensures Natives(Handled(flights, i)) == Natives(flights) && NativesOf(Handled(flights, i), id) == NativesOf(flights, id)
  {
    var after := Handled(flights, i);
    Split(flights, i, id);
    Split(after, i, id);
    assert after[..i] == flights[..i] && after[i + 1..] == flights[i + 1..];
  }

  /** Handling a start ends the wait for it and for no other. */
  lemma HandledAwaited(flights: seq<Flight>, i: nat, id: AttemptId)
    requires i < |flights| && Natives(flights) <= 1 && !flights[i].handled
    ensures Awaited(Handled(flights, i), id) <==> Awaited(flights, id) && flights[i].kind != Start(id)
  {
    var after := Handled(flights, i);
    if Awaited(flights, id) && flights[i].kind != Start(id) {
      var j :| 0 <= j < |flights| && flights[j] == Flight(Start(id), false);
      assert after[j] == flights[j];
    } else if Awaited(after, id) {
      var k :| 0 <= k < |after| && after[k] == Flight(Start(id), false);
      assert k != i && flights[k] == after[k];
      if k < i { TwoNatives(flights, k, i); } else { TwoNatives(flights, i, k); }
    }
  }

  lemma SettleAdmissionKeepsInv(g: Gate, i: nat, ok: bool)
    requires Inv(g) && i < |g.flights| && !g.flights[i].handled && g.flights[i].kind.Admission?
    ensures Inv(SettleAdmission(g, i, ok))
  {
    forall id: AttemptId
      ensures NativesOf(Handled(g.flights, i), id) == NativesOf(g.flights, id)
      ensures Awaited(Handled(g.flights, i), id) <==> Awaited(g.flights, id)
    {
      HandledCounts(g.flights, i, id);
      HandledAwaited(g.flights, i, id);
    }
    HandledCounts(g.flights, i, 0);
  }

  lemma SettleAnswerKeepsInv(g: Gate, i: nat, effects: Effects)
    requires Inv(g) && i < |g.flights| && !g.flights[i].handled
    ensures Inv(SettleAnswer(g, i, effects))
  {
    forall id: AttemptId
      ensures NativesOf(Handled(g.flights, i), id) == NativesOf(g.flights, id)
      ensures Awaited(Handled(g.flights, i), id) <==> Awaited(g.flights, id) && g.flights[i].kind != Start(id)
    {
      HandledCounts(g.flights, i, id);
      HandledAwaited(g.flights, i, id);
    }
    HandledCounts(g.flights, i, 0);
  }

  lemma SettleKeepsInv(g: Gate, i: nat, ok: bool, effects: Effects, reread: bool, pump: bool, choice: Choice)
    requires Inv(g) && i < |g.flights| && !g.flights[i].handled
    ensures Inv(Settle(g, i, ok, effects, reread, pump, choice))
  {
    if g.stopped {
      StoppedSettleKeepsInv(g, i);
    } else if g.flights[i].kind.Admission? {
      SettleAdmissionKeepsInv(g, i, ok);
    } else {
      SettleAnswerKeepsInv(g, i, effects);
      var settled := SettleAnswer(g, i, effects);
      if reread { LaunchKeepsCounted(settled, Read); }
      PumpGivesInv(if reread then Launch(settled, Read) else settled, choice);
    }
  }

  lemma StoppedSettleKeepsInv(g: Gate, i: nat)
    requires Inv(g) && i < |g.flights| && g.stopped
    ensures Inv(g.(flights := Handled(g.flights, i)))
  {
    forall id: AttemptId
      ensures NativesOf(Handled(g.flights, i), id) == NativesOf(g.flights, id)
    {
      HandledCounts(g.flights, i, id);
    }
    HandledCounts(g.flights, i, 0);
  }

  lemma RemovedCounts(flights: seq<Flight>, i: nat, id: AttemptId)
    requires i < |flights|
    ensures var after := flights[..i] + flights[i + 1..];
      Natives(after) == Natives(flights) - One(flights[i]) && NativesOf(after, id) == NativesOf(flights, id) - OneOf(flights[i], id)
  {
    Split(flights, i, id);
    NativesConcat(flights[..i], flights[i + 1..], id);
  }

  lemma RemovedAwaited(flights: seq<Flight>, i: nat, id: AttemptId)
    requires i < |flights| && flights[i].handled
    ensures Awaited(flights[..i] + flights[i + 1..], id) <==> Awaited(flights, id)
  {
    var after := flights[..i] + flights[i + 1..];
    if Awaited(flights, id) {
      var j :| 0 <= j < |flights| && flights[j] == Flight(Start(id), false);
      assert after[if j < i then j else j - 1] == flights[j];
    }
  }

  lemma FinallyKeepsInv(g: Gate, i: nat)
    requires Inv(g) && i < |g.flights| && g.flights[i].handled
    ensures Inv(Finally(g, i))
  {
    var h := Finally(g, i);
    FinallyShape(g, i);
    FinallyTotals(g, i);
    FinallyMarker(g, i);
    forall id: AttemptId
      ensures CountOf(h.attemptCounts, id) == NativesOf(h.flights, id)
    {
      FinallyCounts(g, i, id);
    }
    FinallyPositive(g, i);
  }

  lemma FinallyTotals(g: Gate, i: nat)
    requires Counted(g) && i < |g.flights|
    ensures var h := Finally(g, i); h.networkCount == |h.flights| && h.nativeSubmissionCount == Natives(h.flights) <= 1
  {
    FinallyShape(g, i);
    RemovedCounts(g.flights, i, 0);
    if IsNative(g.flights[i]) { NativeIsCounted(g.flights, i); }
  }

  lemma FinallyShape(g: Gate, i: nat)
    requires Counted(g) && i < |g.flights|
    ensures var h := Finally(g, i); !h.startConflict && h.skipped == g.skipped && h.stopped == g.stopped
    ensures var h := Finally(g, i); h.flights == g.flights[..i] + g.flights[i + 1..]
    ensures var h := Finally(g, i); h.networkCount == g.networkCount - 1
    ensures var h := Finally(g, i); h.networkCount > 0 || h.stopped || h.queuedPumps > 0
  {
  }

  lemma FinallyMarker(g: Gate, i: nat)
    requires Counted(g) && i < |g.flights| && g.flights[i].handled
    ensures var h := Finally(g, i); !h.stopped ==> forall id: AttemptId :: h.inFlightStart == Some(id) <==> Awaited(h.flights, id)
  {
    forall id: AttemptId
      ensures Awaited(Finally(g, i).flights, id) <==> Awaited(g.flights, id)
    {
      RemovedAwaited(g.flights, i, id);
    }
  }

  lemma FinallyPositive(g: Gate, i: nat)
    requires Counted(g) && i < |g.flights|
    ensures var h := Finally(g, i); forall id: AttemptId :: id in h.attemptCounts ==> h.attemptCounts[id] > 0
  {
  }

  lemma FinallyCounts(g: Gate, i: nat, id: AttemptId)
    requires Counted(g) && i < |g.flights|
    ensures CountOf(Finally(g, i).attemptCounts, id) == NativesOf(g.flights[..i] + g.flights[i + 1..], id)
  {
    var f := g.flights[i];
    RemovedCounts(g.flights, i, id);
    assert CountOf(g.attemptCounts, id) == NativesOf(g.flights, id);
    if IsNative(f) {
      NativeIsCounted(g.flights, i);
      assert CountOf(g.attemptCounts, f.kind.attempt) == NativesOf(g.flights, f.kind.attempt);
    }
  }

  lemma PumpedKeepsInv(g: Gate, queued: bool, choice: Choice)
    requires Inv(g) && (queued ==> g.queuedPumps > 0)
    ensures Inv(Pump(Dequeued(g, queued), choice))
  {
    var h := Dequeued(g, queued);
    SameCounters(g, h);
    assert h.stopped ==> Inv(h);
    PumpGivesInv(h, choice);
  }

  lemma RecoveredKeepsInv(g: Gate)
    requires Inv(g)
    ensures Inv(Next(g, Recovered))
  {
    SameCounters(g, g.(pumpPaused := false));
    LaunchKeepsCounted(g.(pumpPaused := false), Read);
  }

  lemma PlainKeepsInv(g: Gate, ev: Event)
    requires Inv(g) && Enabled(g, ev) && (ev.Notified? || ev.AdmissionRetry?)
    ensures Inv(Next(g, ev))
  {
    SameCounters(g, Next(g, ev));
  }

  lemma TrafficKeepsInv(g: Gate, ev: Event)
    requires Inv(g) && Enabled(g, ev) && (ev.Settled? || ev.Finished?)
    ensures Inv(Next(g, ev))
  {
    if ev.Finished? { FinallyKeepsInv(g, ev.flight); }
    else { SettleKeepsInv(g, ev.flight, ev.ok, ev.effects, ev.reread, ev.pump, ev.choice); }
  }

  lemma NextKeepsInv(g: Gate, ev: Event)
    requires Inv(g) && Enabled(g, ev)
    ensures Inv(Next(g, ev))
  {
    if ev.Settled? || ev.Finished? { TrafficKeepsInv(g, ev); }
    else if ev.Pumped? { PumpedKeepsInv(g, ev.queued, ev.choice); }
    else if ev.Recovered? { RecoveredKeepsInv(g); }
    else if ev.Stopped? { }
    else { PlainKeepsInv(g, ev); }
  }

  lemma StepKeepsInv()
    ensures forall g :: Init(g) ==> Inv(g)
    ensures forall g, ev, h :: Inv(g) && Step(g, ev, h) ==> Inv(h)
  {
    forall g, ev, h | Inv(g) && Step(g, ev, h)
      ensures Inv(h)
    {
      NextKeepsInv(g, ev);
    }
  }

  lemma TraceKeepsInv(states: seq<Gate>, events: seq<Event>, i: nat)
    requires IsRun(Init, Step, states, events) && i < |states|
    ensures Inv(states[i])
  {
    StepKeepsInv();
    HoldsThroughout(Init, Step, Inv, states, events, i);
  }

  // ---------------------------------------------------------------- what a run never does

  /** At most one native submission is in flight, the counter counts it, and it stays within the
      network count; the start conflict is never thrown. */
  lemma OneNativeSubmission(states: seq<Gate>, events: seq<Event>, i: nat, a: nat, b: nat)
    requires IsRun(Init, Step, states, events) && i < |states|
    ensures states[i].nativeSubmissionCount <= Min(1, states[i].networkCount) && !states[i].startConflict
    ensures a < |states[i].flights| && b < |states[i].flights| && IsNative(states[i].flights[a]) && IsNative(states[i].flights[b])
      ==> a == b && states[i].nativeSubmissionCount == 1
  {
    TraceKeepsInv(states, events, i);
    var flights := states[i].flights;
    if flights != [] && Natives(flights) == 1 { assert |flights| >= 1; }
    if a < |flights| && b < |flights| && IsNative(flights[a]) && IsNative(flights[b]) {
      NativeIsCounted(flights, a);
      if a < b { TwoNatives(flights, a, b); }
      if b < a { TwoNatives(flights, b, a); }
    }
  }

  /** This native submission has been launched between the two states. */
  predicate Launches(g: Gate, h: Gate, f: Flight)
  {
    f in h.flights && IsNative(f) && !f.handled && f !in g.flights
  }

  /** A step that launches a start begins with an empty network, no current attempt, the native side
      free and no start awaited; one that launches a steer begins with an empty network too. */
  lemma LaunchedOnlyWhenFree(states: seq<Gate>, events: seq<Event>, i: nat, f: Flight)
    requires IsRun(Init, Step, states, events) && i < |events|
    ensures Launches(states[i], states[i + 1], f) ==> Free(states[i], f)
  {
    TraceKeepsInv(states, events, i);
    assert Step(states[i], events[i], states[i + 1]);
    NextLaunchesWhenFree(states[i], events[i], f);
  }

  lemma NextLaunchesWhenFree(g: Gate, ev: Event, f: Flight)
    requires Inv(g) && Enabled(g, ev)
    ensures Launches(g, Next(g, ev), f) ==> Free(g, f)
  {
    if Launches(g, Next(g, ev), f) {
      match ev
      case Pumped(queued, choice) => PumpedLaunchesWhenFree(g, queued, choice, f);
      case Settled(j, ok, effects, reread, pump, choice) => SettleLaunchesNoNative(g, j, ok, effects, reread, pump, choice, f);
      case _ => OthersLaunchNothing(g, ev, f);
    }
  }

  lemma PumpedLaunchesWhenFree(g: Gate, queued: bool, choice: Choice, f: Flight)
    requires Inv(g) && (queued ==> g.queuedPumps > 0)
    requires f in Pump(Dequeued(g, queued), choice).flights && IsNative(f) && !f.handled && f !in g.flights
    ensures Free(g, f)
  {
    SameCounters(g, Dequeued(g, queued));
    PumpLaunchesWhenFree(Dequeued(g, queued), choice, f);
  }

  lemma OthersLaunchNothing(g: Gate, ev: Event, f: Flight)
    requires Enabled(g, ev) && !ev.Pumped? && !ev.Settled?
    requires f in Next(g, ev).flights && IsNative(f)
    ensures f in g.flights
  {
    if ev.Finished? {
      assert Finally(g, ev.flight).flights == g.flights[..ev.flight] + g.flights[ev.flight + 1..];
    } else if ev.Recovered? {
      assert Next(g, ev).flights <= g.flights + [Flight(Read, false)];
    } else {
      assert Next(g, ev).flights == g.flights;
    }
  }

  ghost predicate Free(g: Gate, f: Flight)
    requires IsNative(f)
  {
    g.flights == [] && g.inFlightStart.None? && !g.stopped
    && !g.pumpPaused
    && (f.kind.Start? ==> g.current.None? && !g.nativeBusy)
    && (f.kind.Steer? ==> g.current.Some? && g.current.value == Current(f.kind.attempt, true, true) && !g.steeringPaused)
  }

  lemma PumpLaunchesWhenFree(g: Gate, choice: Choice, f: Flight)
    requires Counted(g) && IsNative(f) && !f.handled && f !in g.flights && f in Pump(g, choice).flights
    ensures Free(g, f)
  {
    if g.flights == [] && !g.stopped { NothingAwaited(g); }
  }

  /** The other direction: a free dispatcher submits. A pump that finds the network empty starts the
      candidate it can admit and reserve, or steers the attempt that takes tools; everything else waits. */
  lemma FreePumpSubmits(g: Gate, choice: Choice)
    requires Counted(g) && !g.stopped && g.flights == [] && !g.pumpPaused
    ensures g.current.None? && !g.nativeBusy ==>
      var starts := choice.candidate && (!choice.admissionRequired || g.admissionGranted) && choice.created.Some? && choice.reserved;
      Natives(Pump(g, choice).flights) == if starts then 1 else 0
    ensures g.current.None? && !g.nativeBusy && Natives(Pump(g, choice).flights) == 1 ==>
      Awaited(Pump(g, choice).flights, choice.created.value)
      && Pump(g, choice).current == Some(Current(choice.created.value, false, true)) && Pump(g, choice).nativeBusy
    ensures g.current.Some? ==>
      var steers := g.current.value.bound && g.current.value.accepting && !g.steeringPaused && choice.steer;
      Pump(g, choice).flights == if steers then [Flight(Steer(g.current.value.id), false)] else []
  {
    NothingAwaited(g);
    assert g.networkCount == 0;
    if g.current.None? && !g.nativeBusy {
      var h := g.(skipped := false);
      assert Pump(g, choice) == PumpStart(h, choice);
      assert Natives([]) == 0;
    }
  }

  lemma BusyPump(g: Gate, choice: Choice)
    requires g.networkCount > 0
    ensures Pump(g, choice).flights == g.flights
  {
  }

  lemma AnswerAddsAtMostARead(g: Gate, i: nat, effects: Effects, reread: bool)
    requires g.networkCount > 0 && i < |g.flights|
    ensures var settled := SettleAnswer(g, i, effects);
      var again := if reread then Launch(settled, Read) else settled;
      again.networkCount > 0 && again.flights == if reread then Handled(g.flights, i) + [Flight(Read, false)] else Handled(g.flights, i)
  {
  }

  /** A handler's own flight is still counted, so the pump at its end never submits. */
  lemma SettleAddsAtMostARead(g: Gate, i: nat, ok: bool, effects: Effects, reread: bool, pump: bool, choice: Choice)
    requires g.networkCount > 0 && i < |g.flights|
    ensures var after := Settle(g, i, ok, effects, reread, pump, choice).flights;
      after == Handled(g.flights, i) || after == Handled(g.flights, i) + [Flight(Read, false)]
  {
    var settled := SettleAnswer(g, i, effects);
    var again := if reread then Launch(settled, Read) else settled;
    AnswerAddsAtMostARead(g, i, effects, reread);
    BusyPump(again, choice);
  }

  lemma SettleLaunchesNoNative(g: Gate, i: nat, ok: bool, effects: Effects, reread: bool, pump: bool, choice: Choice, f: Flight)
    requires Inv(g) && i < |g.flights| && !g.flights[i].handled
    requires IsNative(f) && !f.handled && f in Settle(g, i, ok, effects, reread, pump, choice).flights
    ensures f in g.flights
  {
    SettleAddsAtMostARead(g, i, ok, effects, reread, pump, choice);
    var after := Handled(g.flights, i);
    assert f in after;
    var k :| 0 <= k < |after| && after[k] == f;
    assert k != i && g.flights[k] == f;
  }

  /** A pump refused because of traffic is followed by another: it is queued once the traffic ends. */
  lemma RefusedPumpIsRepeated(states: seq<Gate>, events: seq<Event>, i: nat)
    requires IsRun(Init, Step, states, events) && i < |states|
    requires states[i].skipped && !states[i].stopped
    ensures states[i].flights != [] || states[i].queuedPumps > 0
  {
    TraceKeepsInv(states, events, i);
  }

  /** The per-attempt count that waiters read is zero exactly when no submission of it is in flight. */
  lemma {:induction false} AttemptCountIsExact(states: seq<Gate>, events: seq<Event>, i: nat, id: AttemptId)
    requires IsRun(Init, Step, states, events) && i < |states|
    ensures (id in states[i].attemptCounts) <==> exists f :: f in states[i].flights && IsNative(f) && f.kind.attempt == id
  {
    TraceKeepsInv(states, events, i);
    assert CountOf(states[i].attemptCounts, id) == NativesOf(states[i].flights, id);
    CountedIsNative(states[i].flights, id);
    if exists f :: f in states[i].flights && IsNative(f) && f.kind.attempt == id {
      var f :| f in states[i].flights && IsNative(f) && f.kind.attempt == id;
      var j :| 0 <= j < |states[i].flights| && states[i].flights[j] == f;
      NativeIsCounted(states[i].flights, j);
    }
  }

  lemma {:induction false} CountedIsNative(flights: seq<Flight>, id: AttemptId)
    ensures NativesOf(flights, id) > 0 ==> exists f :: f in flights && IsNative(f) && f.kind.attempt == id
  {
    if flights != [] {
      CountedIsNative(flights[1..], id);
      assert flights[0] in flights && forall f :: f in flights[1..] ==> f in flights;
    }
  }
}

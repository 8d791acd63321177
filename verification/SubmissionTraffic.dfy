/**
 The fields of `ConversationDispatcher` behind `SubmissionGate`, changed in place. `flights` is
 ghost: in the program it is the set of promises that have not reached their `finally`.
 */
module SubmissionTraffic {
  import opened Common
  import opened SubmissionGate

  class Traffic {
    var stopped: bool
    var currentAttempt: Option<Current>
    var nativeBusy: bool
    var pumpPaused: bool
    var steeringPaused: bool
    var networkCount: int
    var nativeSubmissionCount: int
    var attemptSubmissionCounts: map<AttemptId, int>
    var inFlightStartAttempt: Option<AttemptId>
    var startAdmissionInFlight: bool
    var startAdmissionGranted: bool
    var admissionRetryTimer: bool
    var queuedPumps: nat
    var startConflict: bool
    ghost var skipped: bool
    ghost var flights: seq<Flight>

    ghost function View(): Gate
      reads this
    {
      Gate(stopped, currentAttempt, nativeBusy, pumpPaused, steeringPaused, networkCount, nativeSubmissionCount,
           attemptSubmissionCounts, inFlightStartAttempt, startAdmissionInFlight, startAdmissionGranted,
           admissionRetryTimer, queuedPumps, skipped, startConflict, flights)
    }

    constructor ()
      ensures Init(View())
    {
      stopped, currentAttempt, nativeBusy, pumpPaused, steeringPaused := false, None, false, false, false;
      networkCount, nativeSubmissionCount, attemptSubmissionCounts := 0, 0, map[];
      inFlightStartAttempt, startAdmissionInFlight, startAdmissionGranted := None, false, false;
      admissionRetryTimer, queuedPumps, startConflict, skipped, flights := false, 0, false, false, [];
    }

    method LaunchFlight(kind: Kind)
      modifies this`networkCount, this`flights
      ensures View() == Launch(old(View()), kind)
    {
      networkCount := networkCount + 1;
      flights := flights + [Flight(kind, false)];
    }

    method LaunchSubmission(kind: Kind)
      requires kind.Start? || kind.Steer?
      modifies this`networkCount, this`flights, this`nativeSubmissionCount, this`attemptSubmissionCounts
      ensures View() == LaunchNative(old(View()), kind)
    {
      nativeSubmissionCount := nativeSubmissionCount + 1;
      attemptSubmissionCounts := attemptSubmissionCounts[kind.attempt := CountOf(attemptSubmissionCounts, kind.attempt) + 1];
      LaunchFlight(kind);
    }

    method StartTurn(id: AttemptId)
      modifies this
      ensures View() == LaunchStart(old(View()), id)
    {
      if inFlightStartAttempt.Some? && inFlightStartAttempt.value != id {
        startConflict := true;
        return;
      }
      inFlightStartAttempt := Some(id);
      LaunchSubmission(Start(id));
    }

    method StartNext(choice: Choice)
      modifies this
      ensures View() == PumpStart(old(View()), choice)
    {
      if !choice.candidate { return; }
      if choice.admissionRequired && !startAdmissionGranted {
        if admissionRetryTimer || startAdmissionInFlight { return; }
        startAdmissionInFlight := true;
        LaunchFlight(Admission);
        return;
      }
      startAdmissionGranted := false;
      if choice.created.None? { return; }
      if !choice.reserved {
        currentAttempt, nativeBusy := None, false;
        return;
      }
      currentAttempt, nativeBusy := Some(Current(choice.created.value, false, true)), true;
      StartTurn(choice.created.value);
    }

    method PumpNow(choice: Choice)
      modifies this
      ensures View() == Pump(old(View()), choice)
    {
      if stopped { return; }
      skipped := networkCount > 0;
      if networkCount > 0 || pumpPaused || (nativeBusy && currentAttempt.None?) { return; }
      if currentAttempt.None? {
        StartNext(choice);
        return;
      }
      var attempt := currentAttempt.value;
      if !attempt.bound || !attempt.accepting || steeringPaused || !choice.steer { return; }
      LaunchSubmission(Steer(attempt.id));
    }

    method ClearMarker(ghost i: nat, kind: Kind)
      requires i < |flights| && flights[i].kind == kind
      modifies this`flights, this`inFlightStartAttempt
      ensures View() == old(View()).(flights := Handled(old(flights), i),
        inFlightStart := if kind.Start? && old(inFlightStartAttempt) == Some(kind.attempt) then None else old(inFlightStartAttempt))
    {
      flights := Handled(flights, i);
      if kind.Start? && inFlightStartAttempt == Some(kind.attempt) { inFlightStartAttempt := None; }
    }

    method ApplyEffects(effects: Effects)
      modifies this`currentAttempt, this`nativeBusy, this`pumpPaused, this`steeringPaused
      ensures View() == Apply(old(View()), effects)
    {
      currentAttempt, nativeBusy, pumpPaused, steeringPaused :=
        effects.current, effects.nativeBusy, effects.pumpPaused, effects.steeringPaused;
    }

    method SettleFlight(ghost i: nat, kind: Kind, ok: bool, effects: Effects, reread: bool, pump: bool, choice: Choice)
      requires i < |flights| && flights[i].kind == kind
      modifies this
      ensures View() == Settle(old(View()), i, ok, effects, reread, pump, choice)
    {
      if stopped {
        flights := Handled(flights, i);
        return;
      }
      if kind.Admission? {
        flights := Handled(flights, i);
        startAdmissionInFlight := false;
        if ok { startAdmissionGranted := true; } else { admissionRetryTimer := true; }
        return;
      }
      ClearMarker(i, kind);
      ApplyEffects(effects);
      if reread { LaunchFlight(Read); }
      if pump { PumpNow(choice); }
    }

    method FinishNativeSubmission(id: AttemptId)
      modifies this`nativeSubmissionCount, this`attemptSubmissionCounts
      ensures View() == FinishNative(old(View()), id)
    {
      nativeSubmissionCount := Max(0, nativeSubmissionCount - 1);
      var remaining := Max(0, CountOf(attemptSubmissionCounts, id) - 1);
      if remaining > 0 {
        attemptSubmissionCounts := attemptSubmissionCounts[id := remaining];
      } else {
        attemptSubmissionCounts := attemptSubmissionCounts - {id};
      }
    }

    method FinallyFlight(ghost i: nat, kind: Kind)
      requires i < |flights| && flights[i].kind == kind
      modifies this
      ensures View() == Finally(old(View()), i)
    {
      if kind.Start? || kind.Steer? { FinishNativeSubmission(kind.attempt); }
      LeaveNetwork(i);
    }

    method LeaveNetwork(ghost i: nat)
      requires i < |flights|
      modifies this`flights, this`networkCount, this`queuedPumps
      ensures View() == old(View()).(flights := old(flights)[..i] + old(flights)[i + 1..], networkCount := old(networkCount) - 1,
        queuedPumps := old(queuedPumps) + if old(networkCount) == 1 && !stopped then 1 else 0)
    {
      flights := flights[..i] + flights[i + 1..];
      networkCount := networkCount - 1;
      if networkCount == 0 && !stopped { queuedPumps := queuedPumps + 1; }
    }
  }
}

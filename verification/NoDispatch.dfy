/**
 Why recovery may call an operation "never dispatched". A tool handler is a program of steps on
 one ledger row; it runs beside terminalization, crashes and a recovery pass that reads the row
 and, some time later, fails it.
 */
module NoDispatch {
  import opened Common
  import opened Runs
  import opened RecoveryDecisions

  /** What a handler does between its awaits. `Work` may throw like any other step. */
  datatype Action = Checkpoint(receipt: Receipt) | Native | Work

  /** One tool call. `fenced`: it carries a tool fence. `careful`: recovery reads its row only when
      the row is uncertain or no handler of it is left. */
  datatype Call = Call(kind: Kind, args: Args, protocol: nat, program: seq<Action>, fenced: bool, careful: bool)

  datatype Handler = NotStarted | Running(pc: nat) | Caught(noEffect: bool) | Gone

  datatype World = World(
    call: Call, state: OpState, receipt: Receipt, handler: Handler,
    accepting: bool, fence: nat, natives: nat,
    seen: Option<Operation>, retired: bool)

  datatype Event =
    | MarkDispatched
    | Advance
    | Throw(noEffect: bool)
    | Succeed
    | SettleThrow
    | Crash
    | Terminalize
    | MarkUncertain
    | FenceTimeout
    | Observe
    | Retire
    | Reconcile(done: bool)

  /** The attempt still accepts tools under the fence this call was given, which is 0. */
  predicate FenceHolds(w: World)
  {
    !w.call.fenced || (w.accepting && w.fence == 0)
  }

  predicate CheckpointHolds(w: World)
  {
    FenceHolds(w) && (w.state == Dispatched || (!w.call.fenced && w.state == Uncertain))
  }

  function Row(call: Call, state: OpState, receipt: Receipt): Operation
  {
    Operation(0, 0, call.kind, state, call.args, receipt, call.protocol, RemovalUnknown)
  }

  /** A pass reads every unsettled row at its start. */
  predicate MayObserve(w: World)
  {
    Unsettled(w.state) && (w.call.careful ==> w.state == Uncertain || w.handler.Gone?)
  }

  predicate Enabled(w: World, ev: Event)
  {
    match ev
    case MarkDispatched => w.handler.NotStarted? && w.state == Prepared && FenceHolds(w)
    case Advance => w.handler.Running? && w.handler.pc < |w.call.program|
    case Throw(_) => w.handler.Running?
    case Succeed => w.handler.Running? && w.handler.pc == |w.call.program|
    case SettleThrow => w.handler.Caught?
    case Observe => MayObserve(w)
    case Retire => w.seen.Some? && RetiresAsNeverDispatched(w.seen.value)
    case Reconcile(_) => Unsettled(w.state)
    case _ => true
  }

  function Advanced(w: World): World
    requires Enabled(w, Advance)
  {
    match w.call.program[w.handler.pc]
    case Work => w.(handler := Running(w.handler.pc + 1))
    case Native => w.(natives := w.natives + 1, handler := Running(w.handler.pc + 1))
    case Checkpoint(receipt) =>
      if CheckpointHolds(w) then w.(receipt := receipt, handler := Running(w.handler.pc + 1)) else w.(handler := Caught(false))
  }

  predicate Open(w: World)
  {
    w.state == Prepared || w.state == Dispatched || (!w.call.fenced && w.state == Uncertain)
  }

  function Next(w: World, ev: Event): World
    requires Enabled(w, ev)
  {
    match ev
    case MarkDispatched => w.(state := Dispatched, handler := Running(0))
    case Advance => Advanced(w)
    case Throw(noEffect) => w.(handler := Caught(noEffect))
    case Succeed => if FenceHolds(w) && Open(w) then w.(state := Succeeded, handler := Gone) else w.(handler := Caught(false))
    case SettleThrow =>
      if w.state == Uncertain || !FenceHolds(w) || !Open(w) then w.(handler := Gone)
      else w.(state := if w.handler.noEffect then Failed else Uncertain, handler := Gone)
    case Crash => w.(handler := Gone)
    case Terminalize => w.(accepting := false, fence := w.fence + if w.accepting then 1 else 0)
    case MarkUncertain => w.(state := if w.state == Dispatched then Uncertain else w.state)
    case FenceTimeout => w.(state := if w.state == Dispatched then Uncertain else w.state, accepting := false)
    case Observe => w.(seen := Some(Row(w.call, w.state, w.receipt)))
    case Retire =>
      if w.state == Succeeded || w.state == Failed then w.(seen := None)
      else w.(seen := None, state := Failed, retired := true)
    case Reconcile(done) => w.(state := if done then Succeeded else Failed)
  }

  ghost predicate Step(w: World, ev: Event, v: World)
  {
    Enabled(w, ev) && v == Next(w, ev)
  }

  function Start(call: Call): World
  {
    World(call, Prepared, NoReceipt, NotStarted, true, 0, 0, None, false)
  }

  ghost function InitOf(call: Call): World -> bool
  {
    w => w == Start(call)
  }

  // ---------------------------------------------------------------- the row, step by step

  /** The handler's writes go through: the call carries no fence, or its fence has not been raised. */
  predicate MayWrite(w: World)
  {
    !w.call.fenced || (w.accepting && w.fence == 0)
  }

  /** The state of the row after any step, and when the row is retired: a handler settles it only while its
      fence holds and only from an unsettled state, a throw leaves an uncertain row alone, and recovery fails
      it as never dispatched only while nobody else has settled it. */
  lemma StateAfter(w: World, ev: Event)
    requires Enabled(w, ev)
    ensures var sent := w.state == Prepared || w.state == Dispatched;
      Next(w, ev).state ==
        match ev
        case MarkDispatched => Dispatched
        case Succeed => if MayWrite(w) && (sent || (!w.call.fenced && w.state == Uncertain)) then Succeeded else w.state
        case SettleThrow => if MayWrite(w) && sent then (if w.handler.noEffect then Failed else Uncertain) else w.state
        case MarkUncertain => if w.state == Dispatched then Uncertain else w.state
        case FenceTimeout => if w.state == Dispatched then Uncertain else w.state
        case Retire => if w.state == Succeeded then Succeeded else Failed
        case Reconcile(done) => if done then Succeeded else Failed
        case _ => w.state
    ensures Next(w, ev).retired <==> w.retired || (ev == Retire && w.state != Succeeded && w.state != Failed)
  {
  }

  /** What a handler writes and calls: a checkpoint is written only on a row that is dispatched, or without a
      fence uncertain, and ends the handler otherwise; a native call is counted. */
  lemma HandlerAfter(w: World, ev: Event)
    requires Enabled(w, ev)
    ensures var step := if ev == Advance then w.call.program[w.handler.pc] else Work;
      var written := step.Checkpoint? && MayWrite(w) && (w.state == Dispatched || (!w.call.fenced && w.state == Uncertain));
      Next(w, ev).receipt == (if written then step.receipt else w.receipt)
      && Next(w, ev).natives == w.natives + (if step == Native then 1 else 0)
      && (ev == Advance ==> Next(w, ev).handler == if step.Checkpoint? && !written then Caught(false) else Running(w.handler.pc + 1))
    ensures Next(w, ev).accepting == (w.accepting && ev != Terminalize && ev != FenceTimeout)
    ensures Next(w, ev).fence == w.fence + if ev == Terminalize && w.accepting then 1 else 0
  {
  }

  // ---------------------------------------------------------------- checkpoint before dispatch

  /** The receipt on the row once the first `pc` steps have been taken. */
  function ReceiptAt(program: seq<Action>, pc: nat): Receipt
    requires pc <= |program|
  {
    if pc == 0 then NoReceipt
    else if program[pc - 1].Checkpoint? then program[pc - 1].receipt
    else ReceiptAt(program, pc - 1)
  }

  predicate Proves(call: Call, receipt: Receipt)
  {
    RetiresAsNeverDispatched(Row(call, Uncertain, receipt))
  }

  /** From the moment a native call may be made, no receipt of the handler proves "never dispatched". */
  predicate Disciplined(call: Call)
  {
    forall n, pc :: 0 <= n <= pc <= |call.program| && n < |call.program| && call.program[n] == Native ==>
      !Proves(call, ReceiptAt(call.program, pc))
  }

  predicate Called(program: seq<Action>, pc: nat)
    requires pc <= |program|
  {
    exists n :: 0 <= n < pc && program[n] == Native
  }

  /** The call carries a fence, and a worker creation, whose proof does not ask for an uncertain
      row, is read with care. */
  predicate Guarded(call: Call)
  {
    call.fenced && (call.kind == CreateSession ==> call.careful)
  }

  ghost predicate Inv(w: World)
  {
    Disciplined(w.call) && Guarded(w.call)
    && (match w.handler
        case NotStarted => w.natives == 0 && w.receipt == NoReceipt
        case Running(pc) => pc <= |w.call.program| && w.receipt == ReceiptAt(w.call.program, pc)
                            && (w.natives > 0 ==> Called(w.call.program, pc)) && w.state != Prepared
        case _ => true)
    && (w.natives > 0 ==> !Proves(w.call, w.receipt))
    && (w.seen.Some? && RetiresAsNeverDispatched(w.seen.value) ==> Dead(w))
    && (w.retired ==> Dead(w))
  }

  /** The proof holds and can no longer be overtaken. */
  ghost predicate Dead(w: World)
  {
    Proves(w.call, w.receipt) && w.state != Prepared && (w.state != Dispatched || w.handler.Gone?)
  }

  /** The proof does not depend on the row being uncertain rather than dispatched. */
  lemma ProofReadsReceipt(call: Call, state: OpState, receipt: Receipt)
    requires RetiresAsNeverDispatched(Row(call, state, receipt))
    ensures Proves(call, receipt)
  {
  }

  lemma AdvanceKeepsInv(w: World)
    requires Inv(w) && Enabled(w, Advance)
    ensures Inv(Next(w, Advance))
  {
    var program := w.call.program;
    var pc := w.handler.pc;
    var v := Advanced(w);
    if v.handler.Running? {
      assert v.receipt == ReceiptAt(program, pc + 1);
      if Called(program, pc) {
        var n :| 0 <= n < pc && program[n] == Native;
        assert Called(program, pc + 1);
      }
      if program[pc] == Native { assert Called(program, pc + 1); }
      if v.natives > 0 {
        var n :| 0 <= n < pc + 1 && program[n] == Native;
        assert !Proves(w.call, ReceiptAt(program, pc + 1));
      }
    }
  }

  lemma NextKeepsInv(w: World, ev: Event)
    requires Inv(w) && Enabled(w, ev)
    ensures Inv(Next(w, ev))
  {
    match ev
    case Advance => AdvanceKeepsInv(w);
    case Observe => if RetiresAsNeverDispatched(Row(w.call, w.state, w.receipt)) { ProofReadsReceipt(w.call, w.state, w.receipt); }
    case _ =>
  }

  /** Once nothing can overtake the proof, nothing ever does. */
  lemma DeadStays(w: World, ev: Event)
    requires Inv(w) && Enabled(w, ev) && Dead(w)
    ensures Dead(Next(w, ev)) && Next(w, ev).natives == 0
  {
    if ev.Advance? { AdvanceKeepsInv(w); }
    NextKeepsInv(w, ev);
  }

  lemma StepKeepsInv(call: Call)
    requires Disciplined(call) && Guarded(call)
    ensures forall w :: InitOf(call)(w) ==> Inv(w)
    ensures forall w, ev, v :: Inv(w) && Step(w, ev, v) ==> Inv(v)
  {
    forall w, ev, v | Inv(w) && Step(w, ev, v)
      ensures Inv(v)
    {
      NextKeepsInv(w, ev);
    }
  }

  lemma {:induction false} NativesNeverFall(call: Call, states: seq<World>, events: seq<Event>, i: nat, j: nat)
    requires IsRun(InitOf(call), Step, states, events) && i <= j < |states|
    ensures states[i].natives <= states[j].natives
    decreases j
  {
    if i < j {
      NativesNeverFall(call, states, events, i, j - 1);
      var k := j - 1;
      assert Step(states[k], events[k], states[k + 1]);
    }
  }

  /** A row that recovery retires as never dispatched was not dispatched before, and is not later:
      over every run of a guarded call whose checkpoint precedes its dispatch. */
  lemma RetiredIsNeverDispatched(call: Call, states: seq<World>, events: seq<Event>, i: nat, j: nat)
    requires Disciplined(call) && Guarded(call)
    requires IsRun(InitOf(call), Step, states, events) && i < |states| && j < |states|
    requires states[i].retired
    ensures states[j].natives == 0
  {
    StepKeepsInv(call);
    HoldsThroughout(InitOf(call), Step, Inv, states, events, i);
    if j <= i {
      NativesNeverFall(call, states, events, j, i);
    } else {
      forall w, ev, v | Inv(w) && Dead(w) && Step(w, ev, v)
        ensures Dead(v)
      {
        DeadStays(w, ev);
      }
      HoldsFrom(InitOf(call), Step, Inv, (ev: Event) => true, Dead, states, events, i, j);
      HoldsThroughout(InitOf(call), Step, Inv, states, events, j);
    }
  }

  // ---------------------------------------------------------------- and only such handlers

  function Execute(w: World, events: seq<Event>): (r: Option<seq<World>>)
    ensures r.Some? ==> |r.value| == |events| + 1
    decreases |events|
  {
    if events == [] then Some([w])
    else if !Enabled(w, events[0]) then None
    else
      var rest := Execute(Next(w, events[0]), events[1..]);
      if rest.Some? then Some([w] + rest.value) else None
  }

  lemma {:induction false} ExecuteIsRun(w: World, events: seq<Event>)
    requires Execute(w, events).Some?
    decreases |events|
    ensures var states := Execute(w, events).value;
      |states| == |events| + 1 && states[0] == w && forall i :: 0 <= i < |events| ==> Step(states[i], events[i], states[i + 1])
  {
    if events != [] {
      ExecuteIsRun(Next(w, events[0]), events[1..]);
      var rest := Execute(Next(w, events[0]), events[1..]).value;
      var states := Execute(w, events).value;
      forall i | 0 <= i < |events|
        ensures Step(states[i], events[i], states[i + 1])
      {
        if i > 0 { assert Step(rest[i - 1], events[1..][i - 1], rest[i]); }
      }
    }
  }

  lemma {:induction false} ExecuteConcat(w: World, a: seq<Event>, b: seq<Event>)
    requires Execute(w, a).Some? && Execute(Execute(w, a).value[|a|], b).Some?
    ensures Execute(w, a + b).Some?
    ensures Execute(w, a + b).value[|a| + |b|] == Execute(Execute(w, a).value[|a|], b).value[|b|]
    decreases |a|
  {
    if a == [] {
      assert a + b == b;
    } else {
      assert (a + b)[1..] == a[1..] + b;
      ExecuteConcat(Next(w, a[0]), a[1..], b);
    }
  }

  /** `w` reaches `v` by these events. */
  ghost predicate Leads(w: World, events: seq<Event>, v: World)
  {
    Execute(w, events).Some? && Execute(w, events).value[|events|] == v
  }

  lemma Then(w: World, a: seq<Event>, u: World, b: seq<Event>, v: World)
    requires Leads(w, a, u) && Leads(u, b, v)
    ensures Leads(w, a + b, v)
  {
    ExecuteConcat(w, a, b);
  }

  function CallsBefore(program: seq<Action>, pc: nat): nat
    requires pc <= |program|
  {
    if pc == 0 then 0 else CallsBefore(program, pc - 1) + if program[pc - 1] == Native then 1 else 0
  }

  lemma {:induction false} CalledIsCounted(program: seq<Action>, n: nat, pc: nat)
    requires n < pc <= |program| && program[n] == Native
    ensures CallsBefore(program, pc) > 0
    decreases pc
  {
    if n < pc - 1 { CalledIsCounted(program, n, pc - 1); }
  }

  /** A handler that nothing disturbs after its `pc` first steps, on a row that stands in `state` and
      that recovery has read as `seen`. */
  function AtStep(call: Call, pc: nat, state: OpState, seen: Option<Operation>): World
    requires pc <= |call.program|
  {
    World(call, state, ReceiptAt(call.program, pc), Running(pc), true, 0, CallsBefore(call.program, pc), seen, false)
  }

  function Advances(pc: nat): seq<Event>
  {
    seq(pc, i => Advance)
  }

  lemma {:induction false} StepsAreTaken(call: Call, from: nat, pc: nat, state: OpState, seen: Option<Operation>)
    requires from <= pc <= |call.program| && (state == Dispatched || (!call.fenced && state == Uncertain))
    ensures Leads(AtStep(call, from, state, seen), Advances(pc - from), AtStep(call, pc, state, seen))
    decreases pc - from
  {
    if from < pc {
      assert Next(AtStep(call, from, state, seen), Advance) == AtStep(call, from + 1, state, seen);
      StepsAreTaken(call, from + 1, pc, state, seen);
      assert Advances(pc - from)[1..] == Advances(pc - from - 1);
    }
  }

  lemma OneMore(w: World, ev: Event, u: World, rest: seq<Event>, v: World)
    requires Enabled(w, ev) && Next(w, ev) == u && Leads(u, rest, v)
    ensures Leads(w, [ev] + rest, v)
  {
    assert ([ev] + rest)[1..] == rest;
  }

  lemma FollowedRun(call: Call, events: seq<Event>, last: World) returns (states: seq<World>)
    requires Leads(Start(call), events, last)
    ensures IsRun(InitOf(call), Step, states, events) && states[|events|] == last
  {
    ExecuteIsRun(Start(call), events);
    states := Execute(Start(call), events).value;
  }

  /** The undisturbed start of a handler, up to step `pc`. */
  lemma Reaches(call: Call, pc: nat)
    requires pc <= |call.program|
    ensures Leads(Start(call), [MarkDispatched] + Advances(pc), AtStep(call, pc, Dispatched, None))
  {
    StepsAreTaken(call, 0, pc, Dispatched, None);
    OneMore(Start(call), MarkDispatched, AtStep(call, 0, Dispatched, None), Advances(pc), AtStep(call, pc, Dispatched, None));
  }

  /** From step `pc`: the row turns uncertain, recovery reads and retires it, and the call is made
      before that or right after. */
  lemma RetiredAroundCall(call: Call, n: nat, pc: nat) returns (tail: seq<Event>, last: World)
    requires n <= pc <= |call.program| && n < |call.program| && call.program[n] == Native
    requires Proves(call, ReceiptAt(call.program, pc))
    ensures Leads(AtStep(call, pc, Dispatched, None), tail, last) && last.retired && last.natives > 0
  {
    var w := AtStep(call, pc, Dispatched, None);
    var uncertain := w.(state := Uncertain);
    var seen := uncertain.(seen := Some(Row(call, Uncertain, w.receipt)));
    var retired := seen.(seen := None, state := Failed, retired := true);
    if n < pc {
      CalledIsCounted(call.program, n, pc);
      last, tail := retired, [];
    } else {
      last, tail := retired.(natives := w.natives + 1, handler := Running(pc + 1)), [];
      OneMore(retired, Advance, last, tail, last);
      tail := [Advance];
    }
    OneMore(seen, Retire, retired, tail, last);
    tail := [Retire] + tail;
    OneMore(uncertain, Observe, seen, tail, last);
    tail := [Observe] + tail;
    OneMore(w, MarkUncertain, uncertain, tail, last);
    tail := [MarkUncertain] + tail;
  }

  /** A handler that breaks the discipline can be retired as never dispatched and yet dispatch. */
  lemma UndisciplinedIsUnsound(call: Call, n: nat, pc: nat) returns (states: seq<World>, events: seq<Event>)
    requires n <= pc <= |call.program| && n < |call.program| && call.program[n] == Native
    requires Proves(call, ReceiptAt(call.program, pc))
    ensures IsRun(InitOf(call), Step, states, events)
    ensures states[|events|].retired && states[|events|].natives > 0
  {
    var tail, last := RetiredAroundCall(call, n, pc);
    Reaches(call, pc);
    events := [MarkDispatched] + Advances(pc);
    Then(Start(call), events, AtStep(call, pc, Dispatched, None), tail, last);
    events := events + tail;
    states := FollowedRun(call, events, last);
  }

  /** Recovery's proof is sound for a fenced handler exactly when its evidence precedes its dispatch. */
  ghost predicate Sound(call: Call)
  {
    forall states: seq<World>, events: seq<Event>, i: nat, j: nat ::
      IsRun(InitOf(call), Step, states, events) && i < |states| && j < |states| && states[i].retired ==> states[j].natives == 0
  }

  lemma SoundIffDisciplined(call: Call)
    requires Guarded(call)
    ensures Sound(call) <==> Disciplined(call)
  {
    if Disciplined(call) {
      forall states: seq<World>, events: seq<Event>, i: nat, j: nat
        | IsRun(InitOf(call), Step, states, events) && i < |states| && j < |states| && states[i].retired
        ensures states[j].natives == 0
      {
        RetiredIsNeverDispatched(call, states, events, i, j);
      }
    } else {
      var n, pc :| 0 <= n <= pc <= |call.program| && n < |call.program| && call.program[n] == Native
        && Proves(call, ReceiptAt(call.program, pc));
      var states, events := UndisciplinedIsUnsound(call, n, pc);
      assert states[|events|].retired && states[|events|].natives > 0;
    }
  }

  // ---------------------------------------------------------------- calls without a guard

  /** The handler makes no native call, or nothing it ever writes proves "never dispatched". */
  predicate Mute(call: Call)
  {
    (forall n :: 0 <= n < |call.program| ==> call.program[n] != Native)
    || forall pc :: 0 <= pc <= |call.program| ==> !Proves(call, ReceiptAt(call.program, pc))
  }

  /** Recovery reads the proof at step `pc`, the handler goes on and makes its call, which fails; the row
      is retired on what was read. */
  lemma ReadThenSent(call: Call, n: nat, pc: nat) returns (tail: seq<Event>, last: World)
    requires !Guarded(call) && pc <= n < |call.program| && call.program[n] == Native
    requires Proves(call, ReceiptAt(call.program, pc))
    ensures Leads(AtStep(call, pc, Dispatched, None), tail, last) && last.retired && last.natives > 0 && last.handler.Gone?
  {
    var state := if call.fenced then Dispatched else Uncertain;
    var row := Row(call, state, ReceiptAt(call.program, pc));
    var called := AtStep(call, n + 1, state, Some(row));
    CalledIsCounted(call.program, n, n + 1);
    var caught := called.(handler := Caught(false));
    var settled := called.(handler := Gone, state := Uncertain);
    last := settled.(seen := None, state := Failed, retired := true);
    tail := [];
    OneMore(settled, Retire, last, tail, last);
    tail := [Retire];
    OneMore(caught, SettleThrow, settled, tail, last);
    tail := [SettleThrow] + tail;
    OneMore(called, Throw(false), caught, tail, last);
    tail := [Throw(false)] + tail;
    StepsAreTaken(call, pc, n + 1, state, Some(row));
    Then(AtStep(call, pc, state, Some(row)), Advances(n + 1 - pc), called, tail, last);
    tail := Advances(n + 1 - pc) + tail;
    OneMore(AtStep(call, pc, state, None), Observe, AtStep(call, pc, state, Some(row)), tail, last);
    tail := [Observe] + tail;
    if !call.fenced {
      OneMore(AtStep(call, pc, Dispatched, None), MarkUncertain, AtStep(call, pc, Uncertain, None), tail, last);
      tail := [MarkUncertain] + tail;
    }
  }

  /** Without the fence, or for a creation that is read without care, one receipt that proves "never
      dispatched" anywhere in the handler is enough for it to be retired and yet sent. */
  lemma UnguardedIsUnsound(call: Call, n: nat, pc: nat) returns (states: seq<World>, events: seq<Event>)
    requires !Guarded(call) && n < |call.program| && call.program[n] == Native
    requires pc <= |call.program| && Proves(call, ReceiptAt(call.program, pc))
    ensures IsRun(InitOf(call), Step, states, events)
    ensures states[|events|].retired && states[|events|].natives > 0
    ensures pc <= n ==> states[|events|].handler.Gone?
  {
    if n < pc {
      states, events := UndisciplinedIsUnsound(call, n, pc);
    } else {
      var tail, last := ReadThenSent(call, n, pc);
      Reaches(call, pc);
      events := [MarkDispatched] + Advances(pc);
      Then(Start(call), events, AtStep(call, pc, Dispatched, None), tail, last);
      events := events + tail;
      states := FollowedRun(call, events, last);
    }
  }

  ghost predicate Silent(w: World)
  {
    Mute(w.call)
    && (w.natives > 0 ==> exists n :: 0 <= n < |w.call.program| && w.call.program[n] == Native)
    && (exists pc: nat :: pc <= |w.call.program| && (w.handler.Running? ==> pc == w.handler.pc) && w.receipt == ReceiptAt(w.call.program, pc))
    && (w.handler.NotStarted? ==> w.receipt == NoReceipt)
    && (w.natives > 0 ==> !w.retired && (w.seen.Some? ==> !RetiresAsNeverDispatched(w.seen.value)))
    && (w.retired || (w.seen.Some? && RetiresAsNeverDispatched(w.seen.value)) ==>
          forall n :: 0 <= n < |w.call.program| ==> w.call.program[n] != Native)
  }

  lemma SilentStays(w: World, ev: Event)
    requires Silent(w) && Enabled(w, ev)
    ensures Silent(Next(w, ev))
  {
    var pc: nat :| pc <= |w.call.program| && (w.handler.Running? ==> pc == w.handler.pc) && w.receipt == ReceiptAt(w.call.program, pc);
    var v := Next(w, ev);
    if ev.MarkDispatched? {
      assert v.receipt == ReceiptAt(v.call.program, 0);
    } else if ev.Advance? && v.handler.Running? {
      assert v.receipt == ReceiptAt(v.call.program, pc + 1);
    } else {
      assert v.receipt == ReceiptAt(v.call.program, pc);
      if ev.Observe? && RetiresAsNeverDispatched(v.seen.value) { ProofReadsReceipt(w.call, w.state, w.receipt); }
    }
  }

  lemma MuteIsSound(call: Call)
    requires Mute(call)
    ensures Sound(call)
  {
    forall w, ev, v | Silent(w) && Step(w, ev, v)
      ensures Silent(v)
    {
      SilentStays(w, ev);
    }
    assert Start(call).receipt == ReceiptAt(call.program, 0);
    forall states: seq<World>, events: seq<Event>, i: nat, j: nat
      | IsRun(InitOf(call), Step, states, events) && i < |states| && j < |states| && states[i].retired
      ensures states[j].natives == 0
    {
      HoldsThroughout(InitOf(call), Step, Silent, states, events, i);
      HoldsThroughout(InitOf(call), Step, Silent, states, events, j);
      CallStays(call, states, events, i);
      CallStays(call, states, events, j);
    }
  }

  lemma CallStays(call: Call, states: seq<World>, events: seq<Event>, i: nat)
    requires IsRun(InitOf(call), Step, states, events) && i < |states|
    ensures states[i].call == call
  {
    HoldsThroughout(InitOf(call), Step, (w: World) => w.call == call, states, events, i);
  }

  /** For every call, guarded or not: the recovery proof is sound over all runs exactly when the call is
      guarded and its evidence precedes its dispatch, or there is nothing to be wrong about. */
  lemma SoundIff(call: Call)
    ensures Sound(call) <==> if Guarded(call) then Disciplined(call) else Mute(call)
  {
    if Guarded(call) {
      SoundIffDisciplined(call);
    } else if Mute(call) {
      MuteIsSound(call);
    } else {
      var n :| 0 <= n < |call.program| && call.program[n] == Native;
      var pc :| 0 <= pc <= |call.program| && Proves(call, ReceiptAt(call.program, pc));
      var states, events := UnguardedIsUnsound(call, n, pc);
      assert states[|events|].retired && states[|events|].natives > 0;
    }
  }

  // ---------------------------------------------------------------- the handlers of the program

  const NOTHING := Fields(None, None, None, false, None, false, false)

  function InterruptTurn(turn: nat): seq<Action>
  {
    [Work, Checkpoint(NOTHING.(turnId := Some(turn))), Native, Work]
  }

  function InterruptBackground(): seq<Action>
  {
    [Work, Checkpoint(NOTHING.(backgroundStop := true)), Native, Work]
  }

  /** A start writes its settings first and the capacity hint, perhaps with a baseline, before the call. */
  function SendStart(baseline: bool): seq<Action>
  {
    [Work, Checkpoint(NOTHING), Work, Checkpoint(NOTHING.(hasBaseline := baseline, hasCapacityHint := true)), Work, Native, Work]
  }

  function SendSteer(turn: nat): seq<Action>
  {
    [Work, Checkpoint(NOTHING.(turnId := Some(turn))), Work, Native, Work]
  }

  function CreateWorker(endpoint: EndpointId): seq<Action>
  {
    var before := NOTHING.(endpoint := Some(endpoint), dispatchStarted := Some(false));
    var after := before.(dispatchStarted := Some(true));
    [Work, Checkpoint(before), Work, Checkpoint(before), Work, Checkpoint(after), Native, Checkpoint(after), Work]
  }

  ghost predicate IsHandler(call: Call)
  {
    match call.kind
    case InterruptSession => call.program == InterruptBackground() || exists turn :: call.program == InterruptTurn(turn)
    case SendToSession =>
      (call.args.mode == StartMode && exists baseline :: call.program == SendStart(baseline))
      || (call.args.mode == SteerMode && exists turn :: call.program == SendSteer(turn))
    case CreateSession => exists endpoint :: call.program == CreateWorker(endpoint)
    case _ => false
  }

  lemma {:induction false} ReceiptIsSome(program: seq<Action>, from: nat, pc: nat, good: Receipt -> bool)
    requires from < pc <= |program| && program[from].Checkpoint?
    requires forall k :: from <= k < |program| && program[k].Checkpoint? ==> good(program[k].receipt)
    ensures good(ReceiptAt(program, pc))
    decreases pc
  {
    if !program[pc - 1].Checkpoint? { ReceiptIsSome(program, from, pc - 1, good); }
  }

  /** Every handler of the program checkpoints what refutes the proof before its native call. */
  lemma HandlersAreDisciplined(call: Call)
    requires IsHandler(call)
    ensures Disciplined(call)
  {
    var from :=
      match call.kind
      case SendToSession => if call.args.mode == StartMode then 3 else 1
      case CreateSession => 5
      case _ => 1;
    forall n, pc | 0 <= n <= pc <= |call.program| && n < |call.program| && call.program[n] == Native
      ensures !Proves(call, ReceiptAt(call.program, pc))
    {
      ReceiptIsSome(call.program, from, pc, r => !Proves(call, r));
    }
  }

  /** So a retired interrupt, start or steer was never sent and never will be. */
  lemma InterruptsAndSendsAreSound(call: Call)
    requires call.fenced && IsHandler(call) && call.kind != CreateSession
    ensures Sound(call)
  {
    HandlersAreDisciplined(call);
    SoundIffDisciplined(call);
  }

  /** What a handler of the program writes before anything else proves "never dispatched" exactly in these cases. */
  predicate Unwritten(call: Call)
  {
    match call.kind
    case InterruptSession => call.protocol >= 1 && call.args.turnId.None?
    case SendToSession => call.args.mode == StartMode || call.protocol >= 1
    case _ => true
  }

  lemma HandlerIsMuteIff(call: Call)
    requires IsHandler(call)
    ensures Mute(call) <==> !Unwritten(call)
  {
    assert exists n :: 0 <= n < |call.program| && call.program[n] == Native by {
      var at := match call.kind case CreateSession => 6 case InterruptSession => 2 case _ => if call.args.mode == StartMode then 5 else 3;
      assert call.program[at] == Native;
    }
    if Unwritten(call) {
      if call.kind == CreateSession {
        assert Proves(call, ReceiptAt(call.program, 2));
      } else {
        assert Proves(call, ReceiptAt(call.program, 0));
      }
    } else {
      forall pc | 0 <= pc <= |call.program|
        ensures !Proves(call, ReceiptAt(call.program, pc))
      {
        if pc <= 1 {
          assert ReceiptAt(call.program, pc) == NoReceipt;
        } else {
          ReceiptIsSome(call.program, 1, pc, r => !Proves(call, r));
        }
      }
    }
  }

  /** Exactly when a handler of the program may be trusted to be never dispatched once it is retired. An
      interrupt, a start or a steer needs its fence, unless its row can never be retired: a row of
      protocol 0, or an interrupt that was given its turn. A creation needs its fence and a careful read. */
  lemma HandlerIsSoundIff(call: Call)
    requires IsHandler(call)
    ensures Sound(call) <==>
      match call.kind
      case CreateSession => call.fenced && call.careful
      case InterruptSession => call.fenced || call.protocol == 0 || call.args.turnId.Some?
      case _ => call.fenced || (call.args.mode == SteerMode && call.protocol == 0)
  {
    SoundIff(call);
    HandlersAreDisciplined(call);
    HandlerIsMuteIff(call);
  }

  /** A creation is retired soundly exactly when its row is not read while its handler may still send: one
      that is read while it runs can be sent, fail, and be failed as "never started" afterwards. */
  lemma CreationIsSoundIff(call: Call)
    requires call.fenced && call.kind == CreateSession && IsHandler(call)
    ensures Sound(call) <==> call.careful
  {
    HandlerIsSoundIff(call);
  }

  /** Without a fence a checkpoint is still taken on an uncertain row, so a steer is retired soundly
      exactly when it is fenced or its row can never be retired. */
  lemma SteerIsSoundIff(call: Call)
    requires call.kind == SendToSession && call.args.mode == SteerMode && IsHandler(call)
    ensures Sound(call) <==> call.fenced || call.protocol == 0
  {
    HandlerIsSoundIff(call);
  }

  lemma {:induction false} PrefixReceipt(program: seq<Action>, n: nat, pc: nat)
    requires pc <= n <= |program|
    ensures ReceiptAt(program[..n], pc) == ReceiptAt(program, pc)
    decreases pc
  {
    if pc > 0 { PrefixReceipt(program, n, pc - 1); }
  }

  /** Of a worker creation that has reached its first checkpoint, the error alone never decides: its
      failure is recorded as "no effect" exactly when the dispatch checkpoint has not been written,
      and then it made no native call. */
  lemma CreationFailureIsExact(endpoint: EndpointId, pc: nat, refusal: bool)
    requires 2 <= pc <= |CreateWorker(endpoint)|
    ensures var program := CreateWorker(endpoint);
      IsProvenNoEffect(CreateSession, ReceiptAt(program, pc), refusal) <==> pc <= 5
    ensures pc <= 5 ==> !Called(CreateWorker(endpoint), pc)
  {
    var program := CreateWorker(endpoint);
    if pc > 5 {
      ReceiptIsSome(program, 5, pc, (r: Receipt) => r.Fields? && r.dispatchStarted == Some(true));
    } else {
      PrefixReceipt(program, 5, pc);
      ReceiptIsSome(program[..5], 1, pc, (r: Receipt) => r.Fields? && r.dispatchStarted == Some(false));
    }
  }

  /** A restart or disconnect: it resolves its target, then checkpoints "draining" and "idle proven", and
      only then stops the runtime. */
  function StopRuntime(endpoint: EndpointId): seq<Action>
  {
    var written := Checkpoint(NOTHING.(endpoint := Some(endpoint)));
    [Work, written, Work, written, Native, written, Work]
  }

  /** A lifecycle action's failure is recorded as "no effect" exactly when it is a refusal or nothing has
      been written, and in the second case no runtime has been stopped. */
  lemma LifecycleFailureIsExact(kind: Kind, endpoint: EndpointId, pc: nat, refusal: bool)
    requires (kind == RestartEndpoint || kind == DisconnectEndpoint) && pc <= |StopRuntime(endpoint)|
    ensures IsProvenNoEffect(kind, ReceiptAt(StopRuntime(endpoint), pc), refusal) <==> refusal || pc <= 1
    ensures pc <= 1 ==> !Called(StopRuntime(endpoint), pc)
  {
    if pc > 1 { ReceiptIsSome(StopRuntime(endpoint), 1, pc, (r: Receipt) => r.Fields?); }
  }
}

/**
 `ManagedAppServerEndpoint`: starts, closes, shutdowns and losses of one endpoint's connection.
 Every step is one stretch of code between two awaits, and any number of starts may be under way;
 a generation number tells which of them still speaks for the endpoint.
 */
module ManagedEndpoint {
  import opened Common
  import opened Runs

  type Generation = nat
  type ConnectionId = nat

  datatype State = Starting | Ready | Unavailable | Stopped

  /** What a start is waiting for. */
  datatype Stage = Disposing | Opening | Initializing(connection: ConnectionId) | ReadingAccount(connection: ConnectionId)

  /** A connection the runtime has opened: by which start, and whether `close` has been called on it. */
  datatype Connection = Connection(generation: Generation, closed: bool)

  /** A lost connection being disposed of, or being classified. */
  datatype Loss = Loss(generation: Generation, classifying: bool)

  /** The client is made for one connection and the identity is confirmed by it. */
  datatype Endpoint = Endpoint(
    state: State,
    generation: Generation,
    connection: Option<ConnectionId>,
    client: Option<ConnectionId>,
    identity: Option<ConnectionId>,
    starts: map<Generation, Stage>,
    connections: seq<Connection>,
    losses: multiset<Loss>,
    announced: multiset<Generation>)

  // ---------------------------------------------------------------- the steps

  function Closed(connections: seq<Connection>, connection: Option<ConnectionId>): seq<Connection>
  {
    if connection.Some? && connection.value < |connections|
    then connections[connection.value := connections[connection.value].(closed := true)] else connections
  }

  /** `disposeConnection` up to its await: the close has been asked for. */
  function Dispose(e: Endpoint): Endpoint
  {
    e.(connection := None, client := None, identity := None, connections := Closed(e.connections, e.connection))
  }

  predicate Current(e: Endpoint, g: Generation, state: State)
  {
    g == e.generation && e.state == state
  }

  predicate CurrentConnection(e: Endpoint, g: Generation, c: ConnectionId)
  {
    Current(e, g, Starting) && e.connection == Some(c) && e.client == Some(c)
  }

  function Start(e: Endpoint): Endpoint
  {
    if e.state == Ready then e
    else
      var g := e.generation + 1;
      Dispose(e.(generation := g, state := Starting)).(starts := e.starts[g := Disposing])
  }

  /** The catch block of a start. */
  function FailStart(e: Endpoint, g: Generation): Endpoint
  {
    var over := e.(starts := e.starts - {g});
    if g == e.generation then Dispose(over.(state := Unavailable)) else over
  }

  function AfterDispose(e: Endpoint, g: Generation): Endpoint
  {
    if Current(e, g, Starting) then e.(starts := e.starts[g := Opening]) else FailStart(e, g)
  }

  function AfterOpen(e: Endpoint, g: Generation): Endpoint
  {
    var c := |e.connections|;
    if Current(e, g, Starting) then
      e.(connections := e.connections + [Connection(g, false)], connection := Some(c), client := Some(c), starts := e.starts[g := Initializing(c)])
    else FailStart(e.(connections := e.connections + [Connection(g, true)]), g)
  }

  function AfterInitialize(e: Endpoint, g: Generation, c: ConnectionId, ok: bool): Endpoint
  {
    if ok && CurrentConnection(e, g, c) then e.(starts := e.starts[g := ReadingAccount(c)]) else FailStart(e, g)
  }

  function AfterAccount(e: Endpoint, g: Generation, c: ConnectionId, ok: bool): Endpoint
  {
    if ok && CurrentConnection(e, g, c) then e.(starts := e.starts - {g}, identity := Some(c), state := Ready) else FailStart(e, g)
  }

  /** `closeConnection`, and `shutdownRuntime` as far as this endpoint goes. */
  function Close(e: Endpoint): Endpoint
  {
    Dispose(e.(generation := e.generation + 1, state := Stopped))
  }

  function Lose(e: Endpoint, g: Generation): Endpoint
  {
    if g != e.generation || (e.state != Ready && e.state != Starting) then e
    else Dispose(e.(state := Unavailable)).(losses := e.losses + multiset{Loss(g, false)})
  }

  function AfterLossDisposed(e: Endpoint, g: Generation): Endpoint
    requires Loss(g, false) in e.losses
  {
    var rest := e.(losses := e.losses - multiset{Loss(g, false)});
    if Current(e, g, Unavailable) then rest.(losses := rest.losses + multiset{Loss(g, true)}) else rest
  }

  function AfterLossClassified(e: Endpoint, g: Generation): Endpoint
    requires Loss(g, true) in e.losses
  {
    var rest := e.(losses := e.losses - multiset{Loss(g, true)});
    if Current(e, g, Unavailable) then rest.(announced := rest.announced + multiset{g}) else rest
  }

  datatype Event =
    | StartCalled
    | Disposed(g: Generation)
    | Opened(g: Generation)
    | OpenFailed(g: Generation)
    | Initialized(g: Generation, ok: bool)
    | AccountRead(g: Generation, ok: bool)
    | CloseCalled
    | ConnectionLost(g: Generation)
    | LossDisposed(g: Generation)
    | LossClassified(g: Generation)

  predicate Enabled(e: Endpoint, ev: Event)
  {
    match ev
    case Disposed(g) => g in e.starts && e.starts[g] == Disposing
    case Opened(g) => g in e.starts && e.starts[g] == Opening
    case OpenFailed(g) => g in e.starts && e.starts[g] == Opening
    case Initialized(g, _) => g in e.starts && e.starts[g].Initializing?
    case AccountRead(g, _) => g in e.starts && e.starts[g].ReadingAccount?
    case LossDisposed(g) => Loss(g, false) in e.losses
    case LossClassified(g) => Loss(g, true) in e.losses
    case _ => true
  }

  function Next(e: Endpoint, ev: Event): Endpoint
    requires Enabled(e, ev)
  {
    match ev
    case StartCalled => Start(e)
    case Disposed(g) => AfterDispose(e, g)
    case Opened(g) => AfterOpen(e, g)
    case OpenFailed(g) => FailStart(e, g)
    case Initialized(g, ok) => AfterInitialize(e, g, e.starts[g].connection, ok)
    case AccountRead(g, ok) => AfterAccount(e, g, e.starts[g].connection, ok)
    case CloseCalled => Close(e)
    case ConnectionLost(g) => Lose(e, g)
    case LossDisposed(g) => AfterLossDisposed(e, g)
    case LossClassified(g) => AfterLossClassified(e, g)
  }

  ghost predicate Step(e: Endpoint, ev: Event, f: Endpoint)
  {
    Enabled(e, ev) && f == Next(e, ev)
  }

  ghost predicate Init(e: Endpoint)
  {
    e == Endpoint(Stopped, 0, None, None, None, map[], [], multiset{}, multiset{})
  }

  // ---------------------------------------------------------------- the invariant

  /** Every opened connection is the current one or has been closed, and the current one belongs to
      this generation and is open. */
  ghost predicate Owned(e: Endpoint)
  {
    (forall c :: 0 <= c < |e.connections| ==> e.connections[c].closed || e.connection == Some(c))
    && (e.connection.Some? ==>
         e.connection.value < |e.connections| && e.connections[e.connection.value] == Connection(e.generation, false)
         && (e.state == Starting || e.state == Ready))
    && e.client == e.connection
  }

  predicate Confirmed(e: Endpoint)
  {
    (e.state == Ready ==> e.connection.Some? && e.identity == e.connection)
    && (e.state != Ready ==> e.identity.None?)
  }

  ghost predicate StartsInTime(e: Endpoint)
  {
    (forall g :: g in e.starts ==> g <= e.generation)
    && (e.state == Starting ==> e.generation in e.starts)
  }

  /** Each generation spends at most one loss, and none while it is starting or ready. */
  ghost predicate OneLoss(e: Endpoint)
  {
    forall g ::
      var spent := e.losses[Loss(g, false)] + e.losses[Loss(g, true)] + e.announced[g];
      spent <= 1 && (g > e.generation || (g == e.generation && (e.state == Starting || e.state == Ready)) ==> spent == 0)
  }

  ghost predicate Inv(e: Endpoint)
  {
    Owned(e) && Confirmed(e) && StartsInTime(e) && OneLoss(e)
  }

  lemma DisposeKeeps(e: Endpoint)
    requires forall c :: 0 <= c < |e.connections| ==> e.connections[c].closed || e.connection == Some(c)
    ensures var d := Dispose(e);
      Owned(d) && d == e.(connection := None, client := None, identity := None, connections := d.connections)
      && forall c :: 0 <= c < |d.connections| ==> d.connections[c].closed
  {
  }

  lemma FailKeepsInv(e: Endpoint, g: Generation)
    requires Inv(e)
    ensures Inv(FailStart(e, g))
  {
    DisposeKeeps(e.(starts := e.starts - {g}, state := Unavailable));
  }

  lemma AdvanceKeepsInv(e: Endpoint, ev: Event)
    requires Inv(e) && Enabled(e, ev)
    requires NoneYet(e) && (ev.Disposed? || ev.OpenFailed? || ev.Initialized? || ev.AccountRead?)
    ensures Inv(Next(e, ev)) && NoneYet(Next(e, ev))
  {
    FailKeepsInv(e, ev.g);
  }

  lemma OpenKeepsInv(e: Endpoint, g: Generation)
    requires Inv(e) && NoneYet(e) && Enabled(e, Opened(g))
    ensures Inv(AfterOpen(e, g)) && NoneYet(AfterOpen(e, g))
  {
    if !Current(e, g, Starting) {
      var late := e.(connections := e.connections + [Connection(g, true)]);
      assert Owned(late);
      FailKeepsInv(late, g);
    }
  }

  /** A start that is still opening has no connection yet. */
  ghost predicate NoneYet(e: Endpoint)
  {
    e.state == Starting && e.generation in e.starts && (e.starts[e.generation] == Disposing || e.starts[e.generation] == Opening) ==>
      e.connection.None?
  }

  lemma NextKeepsInv(e: Endpoint, ev: Event)
    requires Inv(e) && NoneYet(e) && Enabled(e, ev)
    ensures Inv(Next(e, ev)) && NoneYet(Next(e, ev))
  {
    match ev
    case StartCalled => StartKeepsInv(e);
    case CloseCalled => CloseKeepsInv(e);
    case ConnectionLost(g) => LoseKeepsInv(e, g);
    case Opened(g) => OpenKeepsInv(e, g);
    case LossDisposed(g) => LossKeepsInv(e, ev);
    case LossClassified(g) => LossKeepsInv(e, ev);
    case _ => AdvanceKeepsInv(e, ev);
  }

  lemma StartKeepsInv(e: Endpoint)
    requires Inv(e) && NoneYet(e)
    ensures Inv(Start(e)) && NoneYet(Start(e))
  {
    DisposeKeeps(e.(generation := e.generation + 1, state := Starting));
  }

  lemma CloseKeepsInv(e: Endpoint)
    requires Inv(e)
    ensures Inv(Close(e)) && NoneYet(Close(e))
  {
    DisposeKeeps(e.(generation := e.generation + 1, state := Stopped));
  }

  lemma LoseKeepsInv(e: Endpoint, g: Generation)
    requires Inv(e) && NoneYet(e)
    ensures Inv(Lose(e, g)) && NoneYet(Lose(e, g))
  {
    DisposeKeeps(e.(state := Unavailable));
  }

  lemma LossKeepsInv(e: Endpoint, ev: Event)
    requires Inv(e) && NoneYet(e) && Enabled(e, ev) && (ev.LossDisposed? || ev.LossClassified?)
    ensures Inv(Next(e, ev)) && NoneYet(Next(e, ev))
  {
  }

  lemma StepKeepsInv()
    ensures forall e :: Init(e) ==> Inv(e) && NoneYet(e)
    ensures forall e, ev, f :: Inv(e) && NoneYet(e) && Step(e, ev, f) ==> Inv(f) && NoneYet(f)
  {
    forall e, ev, f | Inv(e) && NoneYet(e) && Step(e, ev, f)
      ensures Inv(f) && NoneYet(f)
    {
      NextKeepsInv(e, ev);
    }
  }

  lemma TraceKeepsInv(states: seq<Endpoint>, events: seq<Event>, i: nat)
    requires IsRun(Init, Step, states, events) && i < |states|
    ensures Inv(states[i]) && NoneYet(states[i])
  {
    StepKeepsInv();
    HoldsThroughout(Init, Step, (e: Endpoint) => Inv(e) && NoneYet(e), states, events, i);
  }

  // ---------------------------------------------------------------- what runs guarantee

  /** Ready means a live connection, client and identity, all of the newest generation. */
  lemma ReadyIsLive(states: seq<Endpoint>, events: seq<Event>, i: nat)
    requires IsRun(Init, Step, states, events) && i < |states| && states[i].state == Ready
    ensures var e := states[i];
      e.connection.Some? && e.client == e.connection && e.identity == e.connection
      && e.connection.value < |e.connections| && e.connections[e.connection.value] == Connection(e.generation, false)
  {
    TraceKeepsInv(states, events, i);
  }

  /** Only the start of the newest generation makes the endpoint ready. */
  lemma OnlyNewestBecomesReady(states: seq<Endpoint>, events: seq<Event>, i: nat, g: Generation)
    requires IsRun(Init, Step, states, events) && i < |events|
    requires states[i].state != Ready && states[i + 1].state == Ready
    ensures events[i].AccountRead? && events[i].g == states[i].generation == states[i + 1].generation
    ensures g in states[i + 1].starts ==> g < states[i + 1].generation
  {
    TraceKeepsInv(states, events, i);
    TraceKeepsInv(states, events, i + 1);
    assert Step(states[i], events[i], states[i + 1]);
  }

  /** No opened connection is left over: it is the current one, or its close has been asked for. */
  lemma NoConnectionLeaks(states: seq<Endpoint>, events: seq<Event>, i: nat, c: ConnectionId)
    requires IsRun(Init, Step, states, events) && i < |states| && c < |states[i].connections|
    ensures states[i].connections[c].closed || states[i].connection == Some(c)
    ensures !states[i].connections[c].closed ==> states[i].connections[c].generation == states[i].generation
  {
    TraceKeepsInv(states, events, i);
  }

  /** "Unavailable" is announced at most once for a generation. */
  lemma AnnouncedOnce(states: seq<Endpoint>, events: seq<Event>, i: nat, g: Generation)
    requires IsRun(Init, Step, states, events) && i < |states|
    ensures states[i].announced[g] <= 1
    ensures g == states[i].generation && (states[i].state == Starting || states[i].state == Ready) ==> states[i].announced[g] == 0
  {
    TraceKeepsInv(states, events, i);
  }

  /** A starting endpoint always has the start of its generation under way, so it does not stay starting. */
  lemma StartingIsUnderWay(states: seq<Endpoint>, events: seq<Event>, i: nat)
    requires IsRun(Init, Step, states, events) && i < |states| && states[i].state == Starting
    ensures states[i].generation in states[i].starts
  {
    TraceKeepsInv(states, events, i);
  }

  /** Only a start of an endpoint that is not ready and a close begin a new generation. */
  lemma GenerationsCount(e: Endpoint, ev: Event)
    requires Enabled(e, ev)
    ensures Next(e, ev).generation == e.generation + if ev.CloseCalled? || (ev.StartCalled? && e.state != Ready) then 1 else 0
    ensures ev.StartCalled? && e.state == Ready ==> Next(e, ev) == e
  {
  }

  /** A start that nothing disturbs makes the endpoint ready on the connection it opened. */
  lemma UndisturbedStartBecomesReady(e: Endpoint) returns (a: Endpoint, b: Endpoint, c: Endpoint, d: Endpoint, f: Endpoint)
    requires Inv(e) && e.state != Ready
    ensures var g := e.generation + 1;
      Step(e, StartCalled, a) && Step(a, Disposed(g), b) && Step(b, Opened(g), c) && Step(c, Initialized(g, true), d)
      && Step(d, AccountRead(g, true), f)
    ensures f.state == Ready && f.generation == e.generation + 1
    ensures f.connection == Some(|e.connections|) == f.identity && f.starts == e.starts
  {
    var g := e.generation + 1;
    a := Next(e, StartCalled);
    b := Next(a, Disposed(g));
    c := Next(b, Opened(g));
    d := Next(c, Initialized(g, true));
    f := Next(d, AccountRead(g, true));
    assert g !in e.starts;
  }

  /** A loss of the connection of a ready endpoint closes it at once, and is announced when nothing else
      happens first; a loss of an older connection changes nothing. */
  lemma LossIsAnnounced(e: Endpoint, g: Generation)
    requires Inv(e) && e.state == Ready
    ensures g != e.generation ==> Next(e, ConnectionLost(g)) == e
    ensures var lost := Next(e, ConnectionLost(e.generation));
      lost.state == Unavailable && lost.connection.None? && lost.identity.None? && lost.connections[e.connection.value].closed
      && Enabled(lost, LossDisposed(e.generation))
      && (var disposed := Next(lost, LossDisposed(e.generation));
          Enabled(disposed, LossClassified(e.generation))
          && Next(disposed, LossClassified(e.generation)).announced == e.announced + multiset{e.generation})
  {
  }

  /** The start of this generation still speaks for the endpoint, on the connection it opened. */
  predicate Speaks(e: Endpoint, g: Generation, c: ConnectionId)
  {
    g == e.generation && e.state == Starting && e.connection == Some(c)
  }

  /** The state after any step. A start speaks for the endpoint only while its generation is the newest, the
      endpoint is starting and its own connection is the current one; if it is the newest and does not, or
      fails, the endpoint is unavailable; the end of an older start leaves the state alone. */
  lemma StateAfter(e: Endpoint, ev: Event)
    requires Inv(e) && Enabled(e, ev)
    ensures Next(e, ev).state ==
      match ev
      case StartCalled => if e.state == Ready then Ready else Starting
      case CloseCalled => Stopped
      case ConnectionLost(g) => if g == e.generation && (e.state == Ready || e.state == Starting) then Unavailable else e.state
      case Disposed(g) => if g == e.generation && e.state != Starting then Unavailable else e.state
      case Opened(g) => if g == e.generation && e.state != Starting then Unavailable else e.state
      case OpenFailed(g) => if g == e.generation then Unavailable else e.state
      case Initialized(g, ok) => if g == e.generation && !(ok && Speaks(e, g, e.starts[g].connection)) then Unavailable else e.state
      case AccountRead(g, ok) =>
        if g != e.generation then e.state else if ok && Speaks(e, g, e.starts[g].connection) then Ready else Unavailable
      case _ => e.state
  {
  }

  /** A start that has been overtaken ends without touching the endpoint; the connection it may still open is
      closed at once. */
  lemma OvertakenStartEnds(e: Endpoint, ev: Event)
    requires Enabled(e, ev) && (ev.Disposed? || ev.Opened? || ev.OpenFailed? || ev.Initialized? || ev.AccountRead?)
    requires ev.g != e.generation
    ensures Next(e, ev) == e.(starts := e.starts - {ev.g}, connections := e.connections + if ev.Opened? then [Connection(ev.g, true)] else [])
  {
    assert e.connections + [] == e.connections;
  }

  /** A loss is announced exactly when its classification finds the endpoint still unavailable in the
      generation that was lost: a start or a close in between makes it silent. */
  lemma AnnouncedIff(e: Endpoint, ev: Event, g: Generation)
    requires Enabled(e, ev)
    ensures Next(e, ev).announced[g] == e.announced[g] + if ev == LossClassified(g) && g == e.generation && e.state == Unavailable then 1 else 0
  {
  }

  /** No start of this generation is under way while the endpoint is stopped. */
  predicate StoppedAlone(e: Endpoint)
  {
    e.state == Stopped ==> forall g :: g in e.starts ==> g < e.generation
  }

  lemma StoppedAloneStays(e: Endpoint, ev: Event)
    requires Inv(e) && StoppedAlone(e) && Enabled(e, ev)
    ensures StoppedAlone(Next(e, ev))
    ensures e.state == Stopped && ev != StartCalled ==> Next(e, ev).state == Stopped
  {
    StateAfter(e, ev);
  }

  lemma {:induction false} StoppedIsAlone(states: seq<Endpoint>, events: seq<Event>, i: nat)
    requires IsRun(Init, Step, states, events) && i < |states|
    ensures StoppedAlone(states[i])
  {
    if i > 0 {
      StoppedIsAlone(states, events, i - 1);
      TraceKeepsInv(states, events, i - 1);
      assert Step(states[i - 1], events[i - 1], states[i - 1 + 1]);
      StoppedAloneStays(states[i - 1], events[i - 1]);
    }
  }

  /** Over every run: from a close until the next start the endpoint is stopped and every connection that was
      ever opened has been closed, whatever the starts and losses under way still do. */
  lemma {:induction false} ClosedStaysStopped(states: seq<Endpoint>, events: seq<Event>, close: nat, i: nat)
    requires IsRun(Init, Step, states, events) && close < i < |states| && events[close] == CloseCalled
    requires forall k :: close < k < i ==> events[k] != StartCalled
    ensures states[i].state == Stopped && states[i].connection.None?
    ensures forall c :: 0 <= c < |states[i].connections| ==> states[i].connections[c].closed
    decreases i
  {
    var k := i - 1;
    assert Step(states[k], events[k], states[k + 1]);
    TraceKeepsInv(states, events, k);
    TraceKeepsInv(states, events, i);
    if k > close {
      ClosedStaysStopped(states, events, close, k);
      StoppedIsAlone(states, events, k);
      StoppedAloneStays(states[k], events[k]);
    }
  }

  // ---------------------------------------------------------------- the fields in place

  class ManagedAppServerEndpoint {
    var state: State
    var generation: Generation
    var connection: Option<ConnectionId>
    var client: Option<ConnectionId>
    var connectionIdentity: Option<ConnectionId>
    var starts: map<Generation, Stage>
    var connections: seq<Connection>
    var losses: multiset<Loss>
    var announced: multiset<Generation>

    function View(): Endpoint
      reads this
    {
      Endpoint(state, generation, connection, client, connectionIdentity, starts, connections, losses, announced)
    }

    constructor ()
      ensures Init(View())
    {
      state, generation, connection, client, connectionIdentity := Stopped, 0, None, None, None;
      starts, connections, losses, announced := map[], [], multiset{}, multiset{};
    }

    method DisposeConnection()
      modifies this`connection, this`client, this`connectionIdentity, this`connections
      ensures View() == Dispose(old(View()))
    {
      var previous := connection;
      connection, client, connectionIdentity := None, None, None;
      if previous.Some? && previous.value < |connections| {
        connections := connections[previous.value := connections[previous.value].(closed := true)];
      }
    }

    method BeginStart()
      modifies this
      ensures View() == Start(old(View()))
    {
      if state == Ready { return; }
      generation := generation + 1;
      state := Starting;
      DisposeConnection();
      starts := starts[generation := Disposing];
    }

    method Fail(g: Generation)
      modifies this
      ensures View() == FailStart(old(View()), g)
    {
      starts := starts - {g};
      if g == generation {
        state := Unavailable;
        DisposeConnection();
      }
    }

    method ContinueDisposed(g: Generation)
      modifies this
      ensures View() == AfterDispose(old(View()), g)
    {
      if g != generation || state != Starting {
        Fail(g);
        return;
      }
      starts := starts[g := Opening];
    }

    method ContinueOpened(g: Generation)
      modifies this
      ensures View() == AfterOpen(old(View()), g)
    {
      var c := |connections|;
      if g != generation || state != Starting {
        connections := connections + [Connection(g, true)];
        Fail(g);
        return;
      }
      connections := connections + [Connection(g, false)];
      connection, client := Some(c), Some(c);
      starts := starts[g := Initializing(c)];
    }

    method ContinueInitialized(g: Generation, c: ConnectionId, ok: bool)
      modifies this
      ensures View() == AfterInitialize(old(View()), g, c, ok)
    {
      if !ok || !CurrentConnection(View(), g, c) {
        Fail(g);
        return;
      }
      starts := starts[g := ReadingAccount(c)];
    }

    method ContinueAccount(g: Generation, c: ConnectionId, ok: bool)
      modifies this
      ensures View() == AfterAccount(old(View()), g, c, ok)
    {
      if !ok || !CurrentConnection(View(), g, c) {
        Fail(g);
        return;
      }
      starts := starts - {g};
      connectionIdentity := Some(c);
      state := Ready;
    }

    method CloseConnection()
      modifies this
      ensures View() == Close(old(View()))
    {
      generation := generation + 1;
      state := Stopped;
      DisposeConnection();
    }

    method LoseConnection(g: Generation)
      modifies this
      ensures View() == Lose(old(View()), g)
    {
      if g != generation || (state != Ready && state != Starting) { return; }
      state := Unavailable;
      DisposeConnection();
      losses := losses + multiset{Loss(g, false)};
    }

    method ContinueLoss(g: Generation)
      requires Loss(g, false) in losses
      modifies this`losses
      ensures View() == AfterLossDisposed(old(View()), g)
    {
      losses := losses - multiset{Loss(g, false)};
      if g != generation || state != Unavailable { return; }
      losses := losses + multiset{Loss(g, true)};
    }

    method AnnounceLoss(g: Generation)
      requires Loss(g, true) in losses
      modifies this`losses, this`announced
      ensures View() == AfterLossClassified(old(View()), g)
    {
      losses := losses - multiset{Loss(g, true)};
      if g == generation && state == Unavailable { announced := announced + multiset{g}; }
    }
  }
}

/**
 The pure decisions of operation recovery: where a row is routed, what may be done with an
 interrupt or a send, and what a lifecycle action subsumes. JSON values appear only as far as
 these decisions read them; the registry's verdict on a removal is a field of the row.
 */
module RecoveryDecisions {
  import opened Common

  type EndpointId = nat
  type Nickname = nat
  type OperationId = nat

  datatype OpState = Prepared | Dispatched | Uncertain | Succeeded | Failed

  datatype Kind =
    | UpdateSessionNotes | SendChatMessage | SendChatAttachment | CollectMessages
    | SetSessionModel | SetReasoningEffort | RenameSession
    | CompactSession | PrepareChatAttachment | CreateSession | AdoptSession
    | InterruptSession | SendToSession | SetGoal | PauseGoal | ResumeGoal | CancelGoal
    | UnadoptSession | ArchiveSession | RecoverEndpoint | DisconnectEndpoint | RestartEndpoint
    | OtherKind

  /** A row's stored receipt: none, something that is not an object, or an object's fields. */
  datatype Receipt =
    | NoReceipt
    | NotAnObject
    | Fields(endpoint: Option<EndpointId>, endpointRef: Option<EndpointId>, turnId: Option<nat>, backgroundStop: bool,
             dispatchStarted: Option<bool>, hasBaseline: bool, hasCapacityHint: bool)

  datatype Mode = StartMode | SteerMode | NoMode

  /** `assistant` says that the nickname, or the owner of an attachment, is "assistant". */
  datatype Args = Args(nickname: Option<Nickname>, assistant: bool, endpoint: Option<EndpointId>, turnId: Option<nat>, mode: Mode)

  datatype Removal = RemovalDone | RemovalNoEffect | RemovalReconcile(endpoint: Option<EndpointId>) | RemovalUnknown

  datatype Operation = Operation(
    id: OperationId, sequence: nat, kind: Kind, state: OpState, args: Args, receipt: Receipt, protocol: nat, removal: Removal)

  datatype Resolver = Resolver(defaultProject: EndpointId, assistantEndpoint: Option<EndpointId>, sessions: map<Nickname, EndpointId>)

  datatype Target = Local | Unknown | ReadyEndpoint(endpoint: EndpointId) | Lifecycle(endpoint: EndpointId)

  // ---------------------------------------------------------------- no-dispatch proofs

  predicate HasNoDispatch(receipt: Receipt, protocol: nat)
  {
    match receipt
    case NoReceipt => protocol >= 1
    case NotAnObject => false
    case Fields(_, _, _, _, started, _, _) => started == Some(false)
  }

  datatype InterruptStep = ProveTurn | StopBackgroundWork | RetireNoEffect | Wait

  function TurnIdOf(args: Args, receipt: Receipt): Option<nat>
  {
    if args.turnId.Some? then args.turnId else if receipt.Fields? then receipt.turnId else None
  }

  function InterruptRecoveryStep(state: OpState, turnId: Option<nat>, receipt: Receipt, protocol: nat): InterruptStep
  {
    if turnId.Some? then ProveTurn
    else if receipt.Fields? && receipt.backgroundStop then StopBackgroundWork
    else if state != Uncertain then Wait
    else if HasNoDispatch(receipt, protocol) then RetireNoEffect
    else Wait
  }

  predicate SendHasNoDispatch(state: OpState, mode: Mode, receipt: Receipt, protocol: nat)
  {
    if state != Uncertain then false
    else match mode
      case SteerMode => HasNoDispatch(receipt, protocol)
      case NoMode => false
      case StartMode => !(receipt.Fields? && (receipt.hasBaseline || receipt.hasCapacityHint))
  }

  /** Recovery fails the row as "never dispatched". */
  predicate RetiresAsNeverDispatched(op: Operation)
  {
    match op.kind
    case InterruptSession =>
      InterruptRecoveryStep(op.state, TurnIdOf(op.args, op.receipt), op.receipt, op.protocol) == RetireNoEffect
    case SendToSession => SendHasNoDispatch(op.state, op.args.mode, op.receipt, op.protocol)
    case CreateSession => HasNoDispatch(op.receipt, op.protocol)
    case _ => false
  }

  /** `isProvenNoEffect`: what a failed handler may record as "nothing happened". `refusal` says that
      the error carries one of the codes that are thrown before anything is done. */
  predicate IsProvenNoEffect(kind: Kind, receipt: Receipt, refusal: bool)
  {
    if kind == CreateSession && receipt.Fields? && receipt.dispatchStarted.Some? then !receipt.dispatchStarted.value
    else if (kind == RestartEndpoint || kind == DisconnectEndpoint) && receipt.NoReceipt? then true
    else refusal
  }

  // ---------------------------------------------------------------- routing

  function SessionTarget(args: Args, resolver: Resolver): Target
  {
    if args.nickname.Some? && args.nickname.value in resolver.sessions
    then ReadyEndpoint(resolver.sessions[args.nickname.value]) else Unknown
  }

  function ReceiptEndpoint(receipt: Receipt): Option<EndpointId>
  {
    if receipt.Fields? then receipt.endpoint else None
  }

  function NamedEndpoint(op: Operation, resolver: Resolver): EndpointId
  {
    if ReceiptEndpoint(op.receipt).Some? then op.receipt.endpoint.value
    else if op.args.endpoint.Some? then op.args.endpoint.value
    else resolver.defaultProject
  }

  function TargetOf(op: Operation, resolver: Resolver): Target
  {
    match op.kind
    case UpdateSessionNotes => Local
    case SendChatMessage => Local
    case SendChatAttachment => Local
    case CollectMessages => Local
    case SetSessionModel => Local
    case SetReasoningEffort => Local
    case RenameSession => Local
    case CompactSession =>
      if op.args.assistant then Local
      else if op.receipt.Fields? && op.receipt.endpointRef.Some? then ReadyEndpoint(op.receipt.endpointRef.value)
      else SessionTarget(op.args, resolver)
    case PrepareChatAttachment => if op.args.assistant then Local else SessionTarget(op.args, resolver)
    case CreateSession => if HasNoDispatch(op.receipt, 0) then Local else ReadyEndpoint(NamedEndpoint(op, resolver))
    case AdoptSession => ReadyEndpoint(NamedEndpoint(op, resolver))
    case InterruptSession => if RetiresAsNeverDispatched(op) then Local else SessionTarget(op.args, resolver)
    case SendToSession => if RetiresAsNeverDispatched(op) then Local else SessionTarget(op.args, resolver)
    case SetGoal => SessionTarget(op.args, resolver)
    case PauseGoal => SessionTarget(op.args, resolver)
    case ResumeGoal => SessionTarget(op.args, resolver)
    case CancelGoal => SessionTarget(op.args, resolver)
    case UnadoptSession => RemovalTarget(op)
    case ArchiveSession => RemovalTarget(op)
    case RecoverEndpoint => Local
    case DisconnectEndpoint => Lifecycle(NamedEndpoint(op, resolver))
    case RestartEndpoint =>
      if resolver.assistantEndpoint == Some(NamedEndpoint(op, resolver)) then Local else Lifecycle(NamedEndpoint(op, resolver))
    case OtherKind => Unknown
  }

  function RemovalTarget(op: Operation): Target
  {
    match op.removal
    case RemovalReconcile(endpoint) => if endpoint.Some? then ReadyEndpoint(endpoint.value) else Unknown
    case RemovalUnknown => Unknown
    case _ => Local
  }

  predicate IsOn(target: Target, endpoint: EndpointId)
  {
    (target.ReadyEndpoint? || target.Lifecycle?) && target.endpoint == endpoint
  }

  /** `currentKind` is a restart, otherwise a disconnect. */
  predicate SubsumedByLifecycle(op: Operation, restart: bool, resolver: Resolver)
  {
    TargetOf(op, resolver).Lifecycle? && (op.kind == DisconnectEndpoint || (op.kind == RestartEndpoint && restart))
  }

  predicate Unsettled(state: OpState)
  {
    state == Dispatched || state == Uncertain
  }

  /** An absent elapsed time is -1. */
  predicate LifecycleRecoveryExhausted(target: Target, state: OpState, failures: nat, elapsed: int, maxFailures: nat, minElapsed: nat)
  {
    target.Lifecycle? && state == Uncertain && failures >= maxFailures && elapsed >= minElapsed
  }


  // ---------------------------------------------------------------- what the decisions mean

  /** What the row itself says about its dispatch: nothing was written under a protocol that writes
      first, or "not started" was written. */
  predicate SaysNotStarted(op: Operation)
  {
    (op.receipt == NoReceipt && op.protocol >= 1) || (op.receipt.Fields? && op.receipt.dispatchStarted == Some(false))
  }

  predicate KnowsTurn(op: Operation)
  {
    op.args.turnId.Some? || (op.receipt.Fields? && op.receipt.turnId.Some?)
  }

  /** Exactly which rows recovery may fail as never dispatched. A start needs no protocol: what it wrote
      before its call is missing. An interrupt must neither know its turn nor be a stop of background
      work. No other kind is ever retired. */
  lemma RetiredIff(op: Operation)
    ensures RetiresAsNeverDispatched(op) <==>
      || (op.kind == CreateSession && SaysNotStarted(op))
      || (op.kind == InterruptSession && op.state == Uncertain && SaysNotStarted(op)
          && !KnowsTurn(op) && !(op.receipt.Fields? && op.receipt.backgroundStop))
      || (op.kind == SendToSession && op.state == Uncertain && op.args.mode == SteerMode && SaysNotStarted(op))
      || (op.kind == SendToSession && op.state == Uncertain && op.args.mode == StartMode
          && (op.receipt.Fields? ==> !op.receipt.hasBaseline && !op.receipt.hasCapacityHint))
  {
  }

  /** What recovery does with an interrupt: it proves the turn that the arguments name, or else the receipt;
      without a turn it repeats a stop of background work; and what is left is retired or waits. */
  lemma InterruptStepIff(op: Operation)
    ensures var step := InterruptRecoveryStep(op.state, TurnIdOf(op.args, op.receipt), op.receipt, op.protocol);
      (step == ProveTurn <==> KnowsTurn(op))
      && (step == StopBackgroundWork <==> !KnowsTurn(op) && op.receipt.Fields? && op.receipt.backgroundStop)
      && (step == RetireNoEffect ==> op.state == Uncertain && SaysNotStarted(op))
    ensures KnowsTurn(op) ==>
      TurnIdOf(op.args, op.receipt) == if op.args.turnId.Some? then op.args.turnId else op.receipt.turnId
  {
  }

  // ---------------------------------------------------------------- what the routes mean

  /** A row that can be retired as never dispatched is retired without its endpoint, whatever state that
      is in. The one exception is a creation with no receipt: its route does not look at the protocol,
      so it waits for an endpoint that its retirement does not need. */
  lemma RetiredIsLocalIff(op: Operation, resolver: Resolver)
    requires RetiresAsNeverDispatched(op)
    ensures TargetOf(op, resolver) == Local <==> !(op.kind == CreateSession && op.receipt == NoReceipt)
  {
  }

  /** The endpoint that a creation, an adoption or a lifecycle action is about: the one on its receipt, else
      the one it was asked for, else the default. */
  predicate IsAbout(op: Operation, resolver: Resolver, endpoint: EndpointId)
  {
    (op.receipt.Fields? && op.receipt.endpoint.Some? ==> op.receipt.endpoint == Some(endpoint))
    && (!(op.receipt.Fields? && op.receipt.endpoint.Some?) && op.args.endpoint.Some? ==> op.args.endpoint == Some(endpoint))
    && (!(op.receipt.Fields? && op.receipt.endpoint.Some?) && op.args.endpoint.None? ==> resolver.defaultProject == endpoint)
  }

  predicate HasSessionOn(op: Operation, resolver: Resolver, endpoint: EndpointId)
  {
    exists nickname <- resolver.sessions :: op.args.nickname == Some(nickname) && resolver.sessions[nickname] == endpoint
  }

  /** Exactly which rows are recovered through which ready endpoint. A send, an interrupt and a goal go to
      the endpoint of their session, unless they are retired; a compaction to the endpoint it wrote down,
      else its session's; a creation and an adoption to the endpoint they are about. */
  lemma ReadyTargetIff(op: Operation, resolver: Resolver, endpoint: EndpointId)
    ensures TargetOf(op, resolver) == ReadyEndpoint(endpoint) <==>
      match op.kind
      case InterruptSession => !RetiresAsNeverDispatched(op) && HasSessionOn(op, resolver, endpoint)
      case SendToSession => !RetiresAsNeverDispatched(op) && HasSessionOn(op, resolver, endpoint)
      case SetGoal => HasSessionOn(op, resolver, endpoint)
      case PauseGoal => HasSessionOn(op, resolver, endpoint)
      case ResumeGoal => HasSessionOn(op, resolver, endpoint)
      case CancelGoal => HasSessionOn(op, resolver, endpoint)
      case PrepareChatAttachment => !op.args.assistant && HasSessionOn(op, resolver, endpoint)
      case CompactSession =>
        !op.args.assistant
        && (if op.receipt.Fields? && op.receipt.endpointRef.Some? then op.receipt.endpointRef == Some(endpoint)
            else HasSessionOn(op, resolver, endpoint))
      case CreateSession => !(op.receipt.Fields? && op.receipt.dispatchStarted == Some(false)) && IsAbout(op, resolver, endpoint)
      case AdoptSession => IsAbout(op, resolver, endpoint)
      case UnadoptSession => op.removal == RemovalReconcile(Some(endpoint))
      case ArchiveSession => op.removal == RemovalReconcile(Some(endpoint))
      case _ => false
  {
  }

  /** Exactly which rows recovery settles without any endpoint. */
  lemma LocalIff(op: Operation, resolver: Resolver)
    ensures TargetOf(op, resolver) == Local <==>
      match op.kind
      case UpdateSessionNotes => true
      case SendChatMessage => true
      case SendChatAttachment => true
      case CollectMessages => true
      case SetSessionModel => true
      case SetReasoningEffort => true
      case RenameSession => true
      case RecoverEndpoint => true
      case CompactSession => op.args.assistant
      case PrepareChatAttachment => op.args.assistant
      case CreateSession => op.receipt.Fields? && op.receipt.dispatchStarted == Some(false)
      case InterruptSession => RetiresAsNeverDispatched(op)
      case SendToSession => RetiresAsNeverDispatched(op)
      case RestartEndpoint => resolver.assistantEndpoint.Some? && IsAbout(op, resolver, resolver.assistantEndpoint.value)
      case UnadoptSession => op.removal == RemovalDone || op.removal == RemovalNoEffect
      case ArchiveSession => op.removal == RemovalDone || op.removal == RemovalNoEffect
      case _ => false
  {
  }

  /** The endpoint policy of a lifecycle action goes to restarts and disconnects only, and never to a
      restart of the endpoint that runs the assistant itself. */
  lemma LifecycleTargetIff(op: Operation, resolver: Resolver, endpoint: EndpointId)
    ensures TargetOf(op, resolver) == Lifecycle(endpoint) <==>
      IsAbout(op, resolver, endpoint)
      && (op.kind == DisconnectEndpoint || (op.kind == RestartEndpoint && resolver.assistantEndpoint != Some(endpoint)))
  {
  }

  /** A forced lifecycle action takes an earlier row with it only if that one stops an endpoint: any
      disconnect, and a restart if the action is itself a restart; never one of the endpoint that runs the
      assistant. */
  lemma SubsumedIff(op: Operation, restart: bool, resolver: Resolver)
    ensures SubsumedByLifecycle(op, restart, resolver) <==>
      (op.kind == DisconnectEndpoint && exists e: EndpointId :: IsAbout(op, resolver, e))
      || (op.kind == RestartEndpoint && restart && exists e: EndpointId :: IsAbout(op, resolver, e) && resolver.assistantEndpoint != Some(e))
  {
    if TargetOf(op, resolver).Lifecycle? {
      LifecycleTargetIff(op, resolver, TargetOf(op, resolver).endpoint);
    }
    forall e: EndpointId | IsAbout(op, resolver, e)
      ensures TargetOf(op, resolver) == Lifecycle(e) <==>
        op.kind == DisconnectEndpoint || (op.kind == RestartEndpoint && resolver.assistantEndpoint != Some(e))
    {
      LifecycleTargetIff(op, resolver, e);
    }
  }

  /** Once a row has named its endpoint on its receipt, recovery goes there, however the arguments and the
      default endpoint would be read by then. */
  lemma ReceiptFixesRoute(op: Operation, resolver: Resolver, asked: Option<EndpointId>, default: EndpointId)
    requires ReceiptEndpoint(op.receipt).Some?
    requires op.kind == CreateSession || op.kind == AdoptSession || op.kind == DisconnectEndpoint || op.kind == RestartEndpoint
    ensures TargetOf(op, resolver) == TargetOf(op.(args := op.args.(endpoint := asked)), resolver.(defaultProject := default))
    ensures TargetOf(op, resolver) == Local || IsOn(TargetOf(op, resolver), op.receipt.endpoint.value)
  {
  }
}

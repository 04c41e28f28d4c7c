/** Records, pauses, journals and bounds the outbox store is built on. */
module OutboxTypes {
  import opened Common
  import opened BucketOrder

  datatype State = Pending | Inflight | Quarantined

  /** The cloud error codes the dispatcher tells apart. */
  datatype ErrorCode =
    | NoCode
    | DeliveryIdCollision
    | ReceiverBindingMismatch
    | ReceiverBindingRequired
    | ReceiverInstallationUnavailable
    | ReceiverRevoked
    | ReceiverReplaced
    | ReceiverDisabled
    | OtherCode(text: string)

  /** Free text, or one of the store's own fixed reasons, codes and messages. */
  datatype Note =
    | Text(text: string)
    | FromCode(code: ErrorCode)
    | HttpStatus(status: int)
    | DeliveryError
    | CollisionResolved
    | InstallationRotated
    | InstallationReset
    | CredentialRebindRequired
    | BindingChanged

  datatype AttemptFailure = AttemptFailure(statusCode: int, errorCode: Note, message: Note, requestId: string)

  /** What a caller hands over and no store operation may change. */
  datatype Event = Event(
    deliveryId: Key,
    envelope: seq<byte>,
    envelopeSha256: string,
    idempotencyKey: string,
    ownerId: string,
    receiverAgentId: string,
    installationId: string,
    credentialGeneration: nat,
    bindingGeneration: nat,
    endpoint: string)

  datatype Delivery = Delivery(
    event: Event,
    state: State,
    sequence: nat,
    enqueuedAt: Timestamp,
    nextAttemptAt: Timestamp,
    attempts: nat,
    last: AttemptFailure,
    quarantinedAt: Option<Timestamp>,
    quarantineReason: Note)

  /** Other stands for any kind string the three known kinds do not cover, the empty one included. */
  datatype PauseKind = Collision | Credential | BindingRejected | Other(name: string)

  datatype DispatchPause = DispatchPause(
    kind: PauseKind,
    reason: Note,
    deliveryId: Key,
    pausedAt: Option<Timestamp>,
    credentialGeneration: nat,
    bindingGeneration: nat,
    last: AttemptFailure)

  datatype Phase = Intent | OldBindingQuarantined | StateRotated | Completed

  datatype InstallationRotation = InstallationRotation(
    oldInstallationId: string,
    newInstallationId: string,
    reason: string,
    phase: Phase,
    startedAt: Timestamp,
    updatedAt: Timestamp,
    quarantined: nat)

  datatype Binding = Binding(
    ownerId: string,
    receiverAgentId: string,
    installationId: string,
    credentialGeneration: nat,
    bindingGeneration: nat)

  /** The part of a binding that ties a record to one authenticated receiver. */
  datatype Principal = Principal(ownerId: string, receiverAgentId: string, installationId: string)

  function PrincipalOf(b: Binding): Principal {
    Principal(b.ownerId, b.receiverAgentId, b.installationId)
  }

  function SenderOf(d: Delivery): Principal {
    Principal(d.event.ownerId, d.event.receiverAgentId, d.event.installationId)
  }

  /** The encoded length of a record is a parameter of the store. */
  datatype Config = Config(maxEvents: nat, maxBytes: nat, retention: nat, size: Delivery -> nat)

  datatype Error =
    | InvalidInput
    | DeliveryExists
    | DeliveryNotFound
    | OutboxFull
    | PruneFailed
    | NotPending
    | PauseKindRequired
    | UnknownPauseKind
    | PauseMismatch
    | IncompleteBinding
    | IdsNotDistinct
    | JournalMissing
    | PhaseMismatch
    | InvalidState

  datatype Reply = Done | Failed(error: Error)

  /** Two versions of the same accepted delivery. */
  predicate SameDelivery(a: Delivery, b: Delivery) {
    a.event == b.event && a.sequence == b.sequence && a.enqueuedAt == b.enqueuedAt
  }
}

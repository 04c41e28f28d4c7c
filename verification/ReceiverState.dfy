/** The receiver's durable state record, as far as rotation and pairing depend on it. */
module ReceiverState {
  import opened Common

  datatype PairingPhase = Unpaired | CodeEntered | BootstrapExchanged | Activated | SteadyState | UnknownPhase

  datatype Data = Data(
    installationId: string,
    bound: bool,
    createdAt: Timestamp,
    phase: PairingPhase,
    pairingCode: string,
    activationToken: string,
    activationExpires: Option<int>,
    retryCount: nat,
    nextRetryAt: Option<int>,
    ownerId: string,
    receiverId: string,
    apiKey: string,
    clockSamples: nat,
    updatedAt: Timestamp)

  /** The state store: one record, updated atomically. */
  class StateStore {
    var data: Data

    constructor (data: Data)
      ensures this.data == data
    {
      this.data := data;
    }
  }
}

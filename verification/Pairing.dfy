/** The pairing manager: code submission, lifecycle changes and the calls that turn a code into a binding. */
module Pairing {
  import opened Common
  import T = OutboxTypes
  import opened OutboxStore
  import opened ReceiverState
  import opened InstallationRotation

  const MIN_CODE_LENGTH: nat := 8
  const MAX_RETRY_DELAY: nat := 120 * SECOND

  datatype LifecycleChange = CredentialRevoked | ReceiverDisabled | ReceiverReplaced | LocalReset | LocalDeauthorized

  datatype Outcome = Accepted | Done | CodeTooShort | RotationFailed(why: Refusal) | BadPhase | MissingCode | MissingToken

  /** What has to be asked of the cloud; the retry count is the one the request was built from. */
  datatype Call =
    | Exchange(code: string, retryCount: nat)
    | Activate(installationId: string, token: string, retryCount: nat)

  datatype Reply =
    | Exchanged(token: string, expires: int)
    | ActivatedAs(ownerId: string, receiverId: string, apiKey: string)
    | CallFailed(retryable: bool)

  /** Four seconds doubled per attempt, but never more than two minutes. */
  function RetryDelay(retryCount: int): (d: nat)
    ensures retryCount >= 1 ==> 4 * SECOND <= d <= MAX_RETRY_DELAY
    ensures retryCount >= 6 ==> d == MAX_RETRY_DELAY
  {
    if retryCount <= 0 then 0
    else Min([4, 8, 16, 32, 64, 128][Min(retryCount, 6) - 1] * SECOND, MAX_RETRY_DELAY)
  }

  lemma RetryDelayGrows(m: int, n: int)
    requires m <= n
    ensures RetryDelay(m) <= RetryDelay(n)
    ensures 1 <= m < n <= 5 ==> 2 * RetryDelay(m) <= RetryDelay(n)
    ensures m <= 0 ==> RetryDelay(m) == 0
    ensures m == 1 ==> RetryDelay(m) == 4 * SECOND
    ensures 1 <= m <= 4 && n == m + 1 ==> RetryDelay(n) == 2 * RetryDelay(m)
    ensures m >= 6 ==> RetryDelay(m) == MAX_RETRY_DELAY
  {
  }

  predicate CanAttempt(nextRetryAt: Option<int>, now: Timestamp) {
    nextRetryAt.Some? ==> now >= nextRetryAt.value
  }

  predicate Rotates(change: LifecycleChange) {
    change.LocalDeauthorized? || change.ReceiverReplaced?
  }

  // The record after each kind of update

  function WithCode(d: Data, code: string): Data {
    d.(phase := CodeEntered, pairingCode := code, activationToken := "", activationExpires := None,
       retryCount := 0, nextRetryAt := None)
  }

  function Cleared(d: Data, now: Timestamp, clearDurable: bool): Data {
    var c := d.(phase := Unpaired, pairingCode := "", activationToken := "", activationExpires := None,
                retryCount := 0, nextRetryAt := None);
    if clearDurable then c.(ownerId := "", receiverId := "", apiKey := "", clockSamples := 0, updatedAt := now) else c
  }

  function GivenUp(d: Data): Data {
    d.(phase := Unpaired, pairingCode := "", activationToken := "", activationExpires := None, retryCount := 0, nextRetryAt := None)
  }

  function Postponed(d: Data, phase: PairingPhase, retryCount: nat, now: Timestamp): Data {
    d.(phase := phase, retryCount := retryCount, nextRetryAt := Some(now + RetryDelay(retryCount)))
  }

  // Operations, as functions of the two stores

  ghost function Submitted(cfg: T.Config, w: World, code: string, newId: string, now: Timestamp): (World, Outcome)
    requires Distinguishes(w.outbox)
  {
    if |code| < MIN_CODE_LENGTH then (w, CodeTooShort)
    else if !w.data.bound then (w.(data := WithCode(w.data, code)), Accepted)
    else
      var (w', r) := RotatedBy(cfg, w, newId, "re_pair", now);
      if r.Refused? then (w', RotationFailed(r.why)) else (w'.(data := WithCode(w'.data, code)), Accepted)
  }

  ghost function Changed(cfg: T.Config, w: World, change: LifecycleChange, reason: string, clearDurable: bool, newId: string, now: Timestamp): (World, Outcome)
    requires Distinguishes(w.outbox)
  {
    if !(w.data.bound && Rotates(change)) then (w.(data := Cleared(w.data, now, clearDurable)), Done)
    else
      var (w', r) := RotatedBy(cfg, w, newId, reason, now);
      if r.Refused? then (w', RotationFailed(r.why)) else (w'.(data := Cleared(w'.data, now, clearDurable)), Done)
  }

  /** One pass of the pairing loop up to the request it wants to send. */
  function Asked(d: Data, connected: bool, now: Timestamp): (Data, Option<Call>, Outcome) {
    match d.phase
    case Unpaired => (d, None, Done)
    case CodeEntered =>
      if !connected || !CanAttempt(d.nextRetryAt, now) then (d, None, Done)
      else if d.pairingCode == "" then (d, None, MissingCode)
      else (d, Some(Exchange(d.pairingCode, d.retryCount)), Done)
    case BootstrapExchanged =>
      if !connected || !CanAttempt(d.nextRetryAt, now) then (d, None, Done)
      else if d.activationToken == "" then (d, None, MissingToken)
      else if d.activationExpires.Some? && now > d.activationExpires.value then (GivenUp(d), None, Done)
      else (d, Some(Activate(d.installationId, d.activationToken, d.retryCount)), Done)
    case Activated => (if d.apiKey == "" then d else d.(phase := SteadyState), None, Done)
    case SteadyState => (d, None, Done)
    case UnknownPhase => (d, None, BadPhase)
  }

  predicate Answers(call: Call, reply: Reply) {
    match reply
    case Exchanged(_, _) => call.Exchange?
    case ActivatedAs(_, _, _) => call.Activate?
    case CallFailed(_) => true
  }

  /** The update the reply to a request makes, on whatever record is stored by then. */
  function Answered(d: Data, call: Call, reply: Reply, now: Timestamp): Data
    requires Answers(call, reply)
  {
    match reply
    case Exchanged(token, expires) =>
      d.(phase := BootstrapExchanged, activationToken := token, activationExpires := Some(expires),
         retryCount := 0, nextRetryAt := None, updatedAt := now)
    case ActivatedAs(ownerId, receiverId, apiKey) =>
      d.(phase := Activated, pairingCode := "", activationToken := "", activationExpires := None,
         retryCount := 0, nextRetryAt := None,
         ownerId := ownerId, receiverId := receiverId, apiKey := apiKey, updatedAt := now, bound := true)
    case CallFailed(retryable) =>
      if !retryable then GivenUp(d)
      else Postponed(d, if call.Exchange? then CodeEntered else BootstrapExchanged, call.retryCount + 1, now)
  }

  /** After a retryable failure nothing is asked again before the delay has passed. */
  lemma RetryWaits(d: Data, call: Call, now: Timestamp, later: Timestamp, connected: bool)
    requires later < now + RetryDelay(call.retryCount + 1)
    ensures var failed := Answered(d, call, CallFailed(true), now); Asked(failed, connected, later) == (failed, None, Done)
  {
  }

  class Manager {
    const store: StateStore
    const rotator: Rotator
    const connected: bool

    constructor (store: StateStore, rotator: Rotator, connected: bool)
      requires rotator.state == store
      ensures this.store == store && this.rotator == rotator && this.connected == connected
    {
      this.store := store;
      this.rotator := rotator;
      this.connected := connected;
    }

    ghost predicate Ready()
      reads this, rotator, rotator.outbox
    {
      rotator.state == store && rotator.outbox.Valid() && Distinguishes(rotator.outbox.View())
    }

    method SubmitPairingCode(code: string, newId: string, now: Timestamp) returns (r: Outcome)
      requires Ready()
      modifies store, rotator.outbox
      ensures Ready() && (rotator.Both(), r) == Submitted(rotator.outbox.cfg, old(rotator.Both()), code, newId, now)
    {
      hide RotatedBy, Rotator.Both, Store.Valid, Store.View;
      if |code| < MIN_CODE_LENGTH {
        return CodeTooShort;
      }
      var before := store.data.bound;
      BothIs(rotator);
      if before {
        var rotated := rotator.RotateInstallation(newId, "re_pair", now);
        if rotated.Refused? {
          return RotationFailed(rotated.why);
        }
      }
      BothIs(rotator);
      store.data := WithCode(store.data, code);
      BothIs(rotator);
      r := Accepted;
    }

    method ApplyLifecycleChange(change: LifecycleChange, reason: string, clearDurable: bool, newId: string, now: Timestamp) returns (r: Outcome)
      requires Ready()
      modifies store, rotator.outbox
      ensures Ready()
      ensures (rotator.Both(), r) == Changed(rotator.outbox.cfg, old(rotator.Both()), change, reason, clearDurable, newId, now)
    {
      hide RotatedBy, Rotator.Both, Store.Valid, Store.View;
      BothIs(rotator);
      if store.data.bound && (change == LocalDeauthorized || change == ReceiverReplaced) {
        var rotated := rotator.RotateInstallation(newId, reason, now);
        if rotated.Refused? {
          return RotationFailed(rotated.why);
        }
      }
      BothIs(rotator);
      store.data := Cleared(store.data, now, clearDurable);
      BothIs(rotator);
      r := Done;
    }

    static lemma BothIs(rotator: Rotator)
      ensures rotator.Both() == World(rotator.outbox.View(), rotator.state.data)
    {
    }

    method Ask(now: Timestamp) returns (call: Option<Call>, r: Outcome)
      modifies store
      ensures (store.data, call, r) == Asked(old(store.data), connected, now)
    {
      var snapshot := store.data;
      call, r := None, Done;
      match snapshot.phase {
        case Unpaired =>
        case CodeEntered =>
          if connected && CanAttempt(snapshot.nextRetryAt, now) {
            if snapshot.pairingCode == "" {
              return None, MissingCode;
            }
            call := Some(Exchange(snapshot.pairingCode, snapshot.retryCount));
          }
        case BootstrapExchanged =>
          if connected && CanAttempt(snapshot.nextRetryAt, now) {
            if snapshot.activationToken == "" {
              return None, MissingToken;
            }
            if snapshot.activationExpires.Some? && now > snapshot.activationExpires.value {
              store.data := GivenUp(store.data);
              return;
            }
            call := Some(Activate(snapshot.installationId, snapshot.activationToken, snapshot.retryCount));
          }
        case Activated =>
          if snapshot.apiKey != "" {
            store.data := store.data.(phase := SteadyState);
          }
        case SteadyState =>
        case UnknownPhase =>
          r := BadPhase;
      }
    }

    method Answer(call: Call, reply: Reply, now: Timestamp)
      requires Answers(call, reply)
      modifies store
      ensures store.data == Answered(old(store.data), call, reply, now)
    {
      match reply {
        case Exchanged(token, expires) =>
          store.data := store.data.(phase := BootstrapExchanged, activationToken := token, activationExpires := Some(expires),
                                    retryCount := 0, nextRetryAt := None, updatedAt := now);
        case ActivatedAs(ownerId, receiverId, apiKey) =>
          store.data := store.data.(phase := Activated, pairingCode := "", activationToken := "", activationExpires := None,
                                    retryCount := 0, nextRetryAt := None,
                                    ownerId := ownerId, receiverId := receiverId, apiKey := apiKey, updatedAt := now, bound := true);
        case CallFailed(retryable) =>
          if retryable {
            store.data := Postponed(store.data, if call.Exchange? then CodeEntered else BootstrapExchanged, call.retryCount + 1, now);
          } else {
            store.data := GivenUp(store.data);
          }
      }
    }
  }
}

/** The dispatcher: pause check, binding check, pick, mark inflight, post, settle. */
module Dispatch {
  import opened Common
  import opened BucketOrder
  import opened OutboxTypes
  import O = Outbox
  import opened OutboxRuns
  import opened DueIndex
  import opened OutboxStore

  // What the cloud answers

  datatype Response =
    | Acknowledged
    | ApiError(retryable: bool, status: int, code: ErrorCode, retryAfter: int, requestId: string, message: string)
    | OtherError(message: string)

  datatype Action = RetryLater | SetAside | Pause | RequirePairing | Stop

  datatype Disposition = Disposition(action: Action, reason: Note, retryAfter: int, pauseKind: Option<PauseKind>)

  predicate IsBindingCode(code: ErrorCode) {
    code.ReceiverBindingMismatch? || code.ReceiverBindingRequired? || code.ReceiverInstallationUnavailable?
    || code.ReceiverRevoked? || code.ReceiverReplaced? || code.ReceiverDisabled?
  }

  function NormalizedReason(code: ErrorCode, status: int): Note {
    if code.NoCode? then HttpStatus(status) else FromCode(code)
  }

  function Classify(r: Response): (d: Disposition)
    requires !r.Acknowledged?
    ensures d.pauseKind.Some? <==> d.action in {Pause, RequirePairing, Stop}
    ensures d.pauseKind.Some? ==> !d.pauseKind.value.Other?
  {
    if r.OtherError? then Disposition(RetryLater, DeliveryError, 0, None) else
      var reason := NormalizedReason(r.code, r.status);
      if r.retryable || r.status == 429 then Disposition(RetryLater, reason, r.retryAfter, None)
      else if r.status == 401 then Disposition(RequirePairing, reason, r.retryAfter, Some(Credential))
      else if r.status == 409 && r.code.DeliveryIdCollision? then Disposition(Stop, reason, r.retryAfter, Some(Collision))
      else if r.status == 403 && IsBindingCode(r.code) then Disposition(Pause, reason, r.retryAfter, Some(BindingRejected))
      else if r.status == 403 then Disposition(Pause, reason, r.retryAfter, Some(Credential))
      else if 400 <= r.status < 500 then Disposition(SetAside, reason, r.retryAfter, None)
      else Disposition(RetryLater, reason, r.retryAfter, None)
  }

  /** An answer that can be tried again whatever else it says. */
  predicate Transient(r: Response) {
    r.OtherError? || (r.ApiError? && (r.retryable || r.status == 429))
  }

  /** Which answers lead to which action, each the other way round too. */
  lemma ActionsByAnswer(r: Response)
    requires !r.Acknowledged?
    ensures var action := Classify(r).action;
            && (action.RequirePairing? <==> !Transient(r) && r.status == 401)
            && (action.Stop? <==> !Transient(r) && r.status == 409 && r.code.DeliveryIdCollision?)
            && (action.Pause? <==> !Transient(r) && r.status == 403)
            && (action.SetAside? <==> !Transient(r) && 400 <= r.status < 500 && r.status !in {401, 403} && !(r.status == 409 && r.code.DeliveryIdCollision?))
            && (action.RetryLater? <==> Transient(r) || !(400 <= r.status < 500))
    ensures Classify(r).pauseKind == Some(BindingRejected) <==> !Transient(r) && r.status == 403 && IsBindingCode(r.code)
    ensures Classify(r).pauseKind == Some(Credential) <==> !Transient(r) && (r.status == 401 || (r.status == 403 && !IsBindingCode(r.code)))
    ensures Classify(r).pauseKind == Some(Collision) <==> Classify(r).action.Stop?
  {
  }

  function FailureOf(r: Response): AttemptFailure
    requires !r.Acknowledged?
  {
    match r
    case ApiError(_, status, code, _, requestId, message) => AttemptFailure(status, FromCode(code), Text(message), requestId)
    case OtherError(message) => AttemptFailure(0, FromCode(NoCode), Text(message), "")
  }

  /** Two seconds doubled per attempt, for at most six attempts. */
  function RetryDelay(attempts: int): (d: nat)
    ensures 2 * SECOND <= d <= 64 * SECOND
  {
    [2, 4, 8, 16, 32, 64][Max(0, Min(attempts, 5))] * SECOND
  }

  /** The delay doubles with each of the first five attempts and then stays. */
  lemma RetryDelayDoubles(attempts: int)
    ensures attempts <= 0 ==> RetryDelay(attempts) == 2 * SECOND
    ensures 0 <= attempts < 5 ==> RetryDelay(attempts + 1) == 2 * RetryDelay(attempts)
    ensures attempts >= 5 ==> RetryDelay(attempts + 1) == RetryDelay(attempts)
  {
  }

  function Delay(d: Delivery, r: Response): (delay: nat)
    requires !r.Acknowledged?
    ensures delay > 0
  {
    if Classify(r).retryAfter > 0 then Classify(r).retryAfter else RetryDelay(d.attempts)
  }

  /** The clock is far enough from the end of its range for any retry time. */
  predicate ClockFits(now: Timestamp, r: Response) {
    r.Acknowledged? || (now + 64 * SECOND < TIME_LIMIT && (r.ApiError? ==> now + r.retryAfter < TIME_LIMIT))
  }

  // One dispatch, as a function of the outbox

  /** What a dispatch reports; failures name the transaction error that ended it. */
  datatype Outcome =
    | Idle
    | Blocked(pause: DispatchPause)
    | Delivered(id: Key)
    | Settled(id: Key, disposition: Disposition)
    | Broken(error: Error)

  /** A request sent to the cloud, and the durable outbox at that moment. */
  datatype Post = Post(delivery: Delivery, stored: O.Outbox)

  datatype Call = Call(reconcileAt: Timestamp, settleAt: Timestamp, response: Response)

  datatype Dispatched = Dispatched(outbox: O.Outbox, outcome: Outcome, post: Option<Post>)

  /** The transaction that follows the answer. */
  function SettlingOp(d: Delivery, b: Binding, now: Timestamp, r: Response): Op
    requires ClockFits(now, r)
  {
    var id := d.event.deliveryId;
    if r.Acknowledged? then DoDelete(id) else
      var disposition := Classify(r);
      var failure := FailureOf(r);
      if disposition.pauseKind.Some? then
        DoPause(id, DispatchPause(disposition.pauseKind.value, disposition.reason, id, Some(now), b.credentialGeneration, b.bindingGeneration, failure), failure)
      else if disposition.action.SetAside? then DoQuarantine(id, disposition.reason, failure)
      else DoRetry(id, now + Delay(d, r), failure)
  }

  ghost function Finish(cfg: Config, o: O.Outbox, d: Delivery, b: Binding, now: Timestamp, call: Call): Dispatched
    requires ClockFits(now, call.response)
  {
    var r := Apply(cfg, o, Step(SettlingOp(d, b, now, call.response), call.settleAt));
    Dispatched(r.0,
               if r.1.Failed? then Broken(r.1.error)
               else if call.response.Acknowledged? then Delivered(d.event.deliveryId)
               else Settled(d.event.deliveryId, Classify(call.response)),
               Some(Post(d, o)))
  }

  ghost function DispatchOnce(cfg: Config, o: O.Outbox, b: Binding, now: Timestamp, call: Call): Dispatched
    requires ClockFits(now, call.response)
  {
    var cleared := O.ClearResolvedPause(o, b);
    if cleared.1.Failed? then Dispatched(cleared.0, Broken(cleared.1.error), None)
    else if cleared.0.pause.Some? then Dispatched(cleared.0, Blocked(cleared.0.pause.value), None)
    else
      var reconciled := O.Reconcile(cfg, cleared.0, b, call.reconcileAt);
      if reconciled.1.Failed? then Dispatched(reconciled.0, Broken(reconciled.1.error), None)
      else
        var next := DueIndex.NextDue(reconciled.0, now);
        if next.None? then Dispatched(reconciled.0, Idle, None)
        else
          var marked := O.MarkInflight(cfg, reconciled.0, next.value.event.deliveryId);
          if marked.1.Failed? then Dispatched(marked.0, Broken(marked.1.error), None)
          else Finish(cfg, marked.0, next.value, b, now, call)
  }

  /** The dispatcher over the store; post is what it sent, if it sent anything. */
  method DispatchWith(store: Store, b: Binding, now: Timestamp, call: Call) returns (outcome: Outcome, ghost post: Option<Post>)
    requires store.Valid() && store.lastSequence < SEQUENCE_LIMIT && ClockFits(now, call.response)
    modifies store
    ensures store.Valid()
    ensures Dispatched(store.View(), outcome, post) == DispatchOnce(store.cfg, old(store.View()), b, now, call)
  {
    hide O.Reconcile, O.MarkInflight, DueIndex.NextDue, NextDueAnswer, O.Quarantine, O.Retry, O.PauseDelivery, O.Delete, O.ClearResolvedPause, StoreAgreement.Agrees;
    post := None;
    var r := store.ClearResolvedPause(b);
    if r.Failed? {
      return Broken(r.error), None;
    }
    if store.pause.Some? {
      return Blocked(store.pause.value), None;
    }
    r := store.ReconcileBinding(b, call.reconcileAt);
    if r.Failed? {
      return Broken(r.error), None;
    }
    SequenceUnchanged(store.cfg, old(store.View()), b, call.reconcileAt);
    var next := store.NextDue(now);
    if next.None? {
      return Idle, None;
    }
    var d := next.value;
    var id := d.event.deliveryId;
    r := store.MarkInflight(id);
    if r.Failed? {
      return Broken(r.error), None;
    }
    post := Some(Post(d, store.View()));
    if call.response.Acknowledged? {
      r := store.Delete(id);
      outcome := if r.Failed? then Broken(r.error) else Delivered(id);
      return;
    }
    var disposition := Classify(call.response);
    var failure := FailureOf(call.response);
    if disposition.action in {Pause, RequirePairing, Stop} {
      var pause := DispatchPause(disposition.pauseKind.value, disposition.reason, id, Some(now), b.credentialGeneration, b.bindingGeneration, failure);
      r := store.PauseDelivery(id, pause, failure, call.settleAt);
    } else if disposition.action.SetAside? {
      r := store.Quarantine(id, disposition.reason, failure, call.settleAt);
    } else {
      r := store.Retry(id, now + Delay(d, call.response), failure);
    }
    outcome := if r.Failed? then Broken(r.error) else Settled(id, disposition);
  }

  lemma SequenceUnchanged(cfg: Config, o: O.Outbox, b: Binding, at: Timestamp)
    ensures O.Reconcile(cfg, O.ClearResolvedPause(o, b).0, b, at).0.lastSequence == o.lastSequence
  {
    hide O.MoveFits, O.Matches;
  }
}

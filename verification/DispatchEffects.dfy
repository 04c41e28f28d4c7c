/** What a dispatch does about the answer it gets, said by the fields of the answer. */
module DispatchEffects {
  import opened Common
  import opened BucketOrder
  import opened OutboxTypes
  import O = Outbox
  import opened OutboxInvariant
  import opened OutboxRuns
  import opened Dispatch
  import DispatchLaws
  import DueIndex
  import E = OutboxEffects

  function PowerOfTwo(n: nat): nat {
    if n == 0 then 1 else 2 * PowerOfTwo(n - 1)
  }

  // The kinds of answer

  predicate TryAgain(r: Response) {
    match r
    case Acknowledged => false
    case OtherError(_) => true
    case ApiError(retryable, status, _, _, _, _) => retryable || status == 429 || status < 400 || 500 <= status
  }

  predicate CredentialRefused(r: Response) {
    && r.ApiError? && !r.retryable
    && (r.status == 401 || (r.status == 403 && !IsBindingCode(r.code)))
  }

  predicate BindingRefused(r: Response) {
    r.ApiError? && !r.retryable && r.status == 403 && IsBindingCode(r.code)
  }

  predicate Collided(r: Response) {
    r.ApiError? && !r.retryable && r.status == 409 && r.code == DeliveryIdCollision
  }

  predicate Rejected(r: Response) {
    && r.ApiError? && !r.retryable && 400 <= r.status < 500
    && r.status != 401 && r.status != 403 && r.status != 429 && !(r.status == 409 && r.code == DeliveryIdCollision)
  }

  /** Every answer is of exactly one kind. */
  lemma OneKind(r: Response)
    ensures r.Acknowledged? || TryAgain(r) || CredentialRefused(r) || BindingRefused(r) || Collided(r) || Rejected(r)
    ensures TryAgain(r) ==> !CredentialRefused(r) && !BindingRefused(r) && !Collided(r) && !Rejected(r)
    ensures CredentialRefused(r) ==> !BindingRefused(r) && !Collided(r) && !Rejected(r)
    ensures BindingRefused(r) ==> !Collided(r) && !Rejected(r)
    ensures Collided(r) ==> !Rejected(r)
  {
  }

  predicate ReportsFailure(f: AttemptFailure, r: Response) {
    match r
    case Acknowledged => false
    case ApiError(_, status, code, _, requestId, message) => f == AttemptFailure(status, FromCode(code), Text(message), requestId)
    case OtherError(message) => f == AttemptFailure(0, FromCode(NoCode), Text(message), "")
  }

  predicate NamesReason(reason: Note, r: Response) {
    r.ApiError? && reason == if r.code == NoCode then HttpStatus(r.status) else FromCode(r.code)
  }

  /** How long to wait: what the answer asks for, or two seconds doubled for each of the first five attempts. */
  function Wait(r: Response, attempts: nat): int {
    if r.ApiError? && r.retryAfter > 0 then r.retryAfter else 2 * SECOND * PowerOfTwo(if attempts < 5 then attempts else 5)
  }

  // What becomes of the record

  predicate PutOff(o': O.Outbox, p: Delivery, r: Response, now: Timestamp) {
    var id := p.event.deliveryId;
    && id in o'.deliveries && o'.pause.None?
    && var d := o'.deliveries[id];
    && d == p.(state := Pending, attempts := p.attempts + 1, nextAttemptAt := d.nextAttemptAt, last := d.last)
    && d.nextAttemptAt == now + Wait(r, p.attempts) && ReportsFailure(d.last, r)
  }

  predicate Paused(o': O.Outbox, p: Delivery, b: Binding, r: Response, kind: PauseKind, now: Timestamp) {
    var id := p.event.deliveryId;
    && id in o'.deliveries && o'.pause.Some?
    && var d, pause := o'.deliveries[id], o'.pause.value;
    && d == p.(state := Pending, attempts := p.attempts + 1, last := d.last) && ReportsFailure(d.last, r)
    && pause.kind == kind && pause.deliveryId == id && pause.pausedAt == Some(now) && pause.last == d.last && NamesReason(pause.reason, r)
    && pause.credentialGeneration == b.credentialGeneration && pause.bindingGeneration == b.bindingGeneration
  }

  predicate Aside(o': O.Outbox, p: Delivery, r: Response, at: Timestamp) {
    var id := p.event.deliveryId;
    && id !in o'.deliveries && id in o'.quarantine && o'.pause.None?
    && var q := o'.quarantine[id];
    && q.event == p.event && q.sequence == p.sequence && q.state.Quarantined? && q.quarantinedAt == Some(at)
    && NamesReason(q.quarantineReason, r) && ReportsFailure(q.last, r)
  }

  predicate ActsOn(o': O.Outbox, p: Delivery, b: Binding, now: Timestamp, call: Call) {
    var r := call.response;
    && (r.Acknowledged? ==> !Has(o', p.event.deliveryId) && o'.pause.None?)
    && (TryAgain(r) ==> PutOff(o', p, r, now))
    && (CredentialRefused(r) ==> Paused(o', p, b, r, Credential, now))
    && (BindingRefused(r) ==> Paused(o', p, b, r, BindingRejected, now))
    && (Collided(r) ==> Paused(o', p, b, r, Collision, now))
    && (Rejected(r) ==> Aside(o', p, r, call.settleAt))
  }

  lemma WaitIsDelay(p: Delivery, r: Response)
    requires !r.Acknowledged? && TryAgain(r)
    ensures Delay(p, r) == Wait(r, p.attempts)
  {
    assert PowerOfTwo(1) == 2 && PowerOfTwo(2) == 4 && PowerOfTwo(3) == 8;
    assert PowerOfTwo(4) == 2 * PowerOfTwo(3) && PowerOfTwo(5) == 2 * PowerOfTwo(4);
  }

  lemma AcknowledgedSettles(cfg: Config, m: O.Outbox, p: Delivery, b: Binding, now: Timestamp, call: Call)
    requires Inv(m) && p.event.deliveryId in m.deliveries && call.response.Acknowledged?
    ensures var d := Finish(cfg, m, p, b, now, call);
            !d.outcome.Broken? && !Has(d.outbox, p.event.deliveryId) && d.outbox.pause == m.pause
  {
    E.DeletesExactly(m, p.event.deliveryId);
  }

  lemma TryAgainSettles(cfg: Config, m: O.Outbox, p: Delivery, b: Binding, now: Timestamp, call: Call)
    requires ClockFits(now, call.response) && TryAgain(call.response) && !Finish(cfg, m, p, b, now, call).outcome.Broken?
    requires p.event.deliveryId in m.deliveries && m.deliveries[p.event.deliveryId] == p.(state := Inflight) && m.pause.None?
    ensures PutOff(Finish(cfg, m, p, b, now, call).outbox, p, call.response, now)
  {
    var r := call.response;
    WaitIsDelay(p, r);
    assert SettlingOp(p, b, now, r) == DoRetry(p.event.deliveryId, now + Delay(p, r), FailureOf(r));
    E.RetriedRecord(cfg, m, p.event.deliveryId, now + Delay(p, r), FailureOf(r));
    hide O.Retry, Wait, Delay, SettlingOp;
  }

  lemma PauseSettles(cfg: Config, m: O.Outbox, p: Delivery, b: Binding, now: Timestamp, call: Call, kind: PauseKind)
    requires ClockFits(now, call.response) && !Finish(cfg, m, p, b, now, call).outcome.Broken?
    requires var r := call.response;
             || (CredentialRefused(r) && kind == Credential)
             || (BindingRefused(r) && kind == BindingRejected)
             || (Collided(r) && kind == Collision)
    requires p.event.deliveryId in m.deliveries && m.deliveries[p.event.deliveryId] == p.(state := Inflight)
    ensures Paused(Finish(cfg, m, p, b, now, call).outbox, p, b, call.response, kind, now)
  {
    var r, id := call.response, p.event.deliveryId;
    var pause := DispatchPause(kind, NormalizedReason(r.code, r.status), id, Some(now), b.credentialGeneration, b.bindingGeneration, FailureOf(r));
    assert SettlingOp(p, b, now, r) == DoPause(id, pause, FailureOf(r));
    E.PausedRecord(cfg, m, id, pause, FailureOf(r), call.settleAt);
    hide O.PauseDelivery, SettlingOp;
  }

  lemma RejectedSettles(cfg: Config, m: O.Outbox, p: Delivery, b: Binding, now: Timestamp, call: Call)
    requires ClockFits(now, call.response) && Rejected(call.response) && !Finish(cfg, m, p, b, now, call).outcome.Broken?
    requires p.event.deliveryId in m.deliveries && m.deliveries[p.event.deliveryId] == p.(state := Inflight) && m.pause.None?
    ensures Aside(Finish(cfg, m, p, b, now, call).outbox, p, call.response, call.settleAt)
  {
    var r, id := call.response, p.event.deliveryId;
    assert SettlingOp(p, b, now, r) == DoQuarantine(id, NormalizedReason(r.code, r.status), FailureOf(r));
    E.QuarantinedRecord(cfg, m, id, NormalizedReason(r.code, r.status), FailureOf(r), call.settleAt);
    hide O.Quarantine, SettlingOp;
  }

  /**
   A dispatch that has posted and is not broken off has done what the answer asks for: deleted the record, put it off,
   paused for the right reason under the caller's generations, or set it aside.
   */
  lemma AnswerIsActedOn(cfg: Config, o: O.Outbox, b: Binding, now: Timestamp, call: Call)
    requires Inv(o) && ClockFits(now, call.response)
    ensures var d := DispatchOnce(cfg, o, b, now, call);
            d.post.Some? && !d.outcome.Broken? ==> ActsOn(d.outbox, d.post.value.delivery, b, now, call)
  {
    hide DispatchOnce, Inv, Finish, PutOff, Paused, Aside, TryAgain, CredentialRefused, BindingRefused, Collided, Rejected;
    var d := DispatchOnce(cfg, o, b, now, call);
    if d.post.Some? && !d.outcome.Broken? {
      var p, m := d.post.value.delivery, d.post.value.stored;
      DispatchLaws.PostsSafely(cfg, o, b, now, call);
      Posted(cfg, o, b, now, call);
      var r := call.response;
      OneKind(r);
      if r.Acknowledged? {
        AcknowledgedSettles(cfg, m, p, b, now, call);
        NoneIs(r);
      } else if TryAgain(r) {
        TryAgainSettles(cfg, m, p, b, now, call);
      } else if CredentialRefused(r) {
        PauseSettles(cfg, m, p, b, now, call, Credential);
      } else if BindingRefused(r) {
        PauseSettles(cfg, m, p, b, now, call, BindingRejected);
      } else if Collided(r) {
        PauseSettles(cfg, m, p, b, now, call, Collision);
      } else {
        RejectedSettles(cfg, m, p, b, now, call);
      }
    }
  }

  lemma NoneIs(r: Response)
    requires r.Acknowledged?
    ensures !TryAgain(r) && !CredentialRefused(r) && !BindingRefused(r) && !Collided(r) && !Rejected(r)
  {
  }

  /** The record as it was picked and as it is stored when the request goes out. */
  lemma Posted(cfg: Config, o: O.Outbox, b: Binding, now: Timestamp, call: Call)
    requires Inv(o) && ClockFits(now, call.response) && DispatchOnce(cfg, o, b, now, call).post.Some?
    ensures var d := DispatchOnce(cfg, o, b, now, call);
            var p, m := d.post.value.delivery, d.post.value.stored;
            && Inv(m) && p.event.deliveryId in m.deliveries && m.deliveries[p.event.deliveryId] == p.(state := Inflight)
            && p.state.Pending? && d == Finish(cfg, m, p, b, now, call)
  {
    hide DispatchOnce, Inv, Finish;
    DispatchLaws.PostingPath(cfg, o, b, now, call);
    DispatchLaws.PostingStates(cfg, o, b, now, call);
    var d := DispatchOnce(cfg, o, b, now, call);
    var r := DispatchLaws.Reconciled(cfg, o, b, call).0;
    DispatchLaws.ReconciledIsConsistent(cfg, o, b, call);
    MarkingKeeps(cfg, r, d.post.value.delivery.event.deliveryId);
    hide DispatchLaws.Reconciled;
  }

  lemma MarkingKeeps(cfg: Config, o: O.Outbox, id: Key)
    requires Inv(o)
    ensures Inv(O.MarkInflight(cfg, o, id).0)
  {
    hide Inv, Next, Preserves;
    StepSound(cfg, o, Step(DoMarkInflight(id), 0));
    MarkIsStep(cfg, o, id);
  }

  lemma MarkIsStep(cfg: Config, o: O.Outbox, id: Key)
    ensures Next(cfg, o, Step(DoMarkInflight(id), 0)) == O.MarkInflight(cfg, o, id).0
  {
    hide O.MarkInflight;
  }

  /** After a post, a dispatch is broken off only for want of room, and never when the delivery was acknowledged. */
  lemma BrokenOnlyForRoom(cfg: Config, o: O.Outbox, b: Binding, now: Timestamp, call: Call)
    requires Inv(o) && ClockFits(now, call.response)
    ensures var d := DispatchOnce(cfg, o, b, now, call);
            d.post.Some? && d.outcome.Broken? ==> d.outcome.error.OutboxFull? && !call.response.Acknowledged?
  {
    hide DispatchOnce, Inv, Finish;
    var d := DispatchOnce(cfg, o, b, now, call);
    if d.post.Some? {
      Posted(cfg, o, b, now, call);
      SettlesOrFull(cfg, d.post.value.stored, d.post.value.delivery, b, now, call);
    }
  }

  lemma SettlesOrFull(cfg: Config, m: O.Outbox, p: Delivery, b: Binding, now: Timestamp, call: Call)
    requires ClockFits(now, call.response) && p.event.deliveryId in m.deliveries
    ensures var d := Finish(cfg, m, p, b, now, call);
            d.outcome.Broken? ==> d.outcome.error.OutboxFull? && !call.response.Acknowledged?
  {
    hide O.Used, O.MoveFits, O.Moved;
  }

  /** A dispatch with nothing in its way posts the record that is due first. */
  lemma PostsFirstDue(cfg: Config, o: O.Outbox, b: Binding, now: Timestamp, call: Call, d: Delivery)
    requires Inv(o) && ClockFits(now, call.response)
    requires o.pause.None? && O.Complete(b) && o.reconciled == Some(PrincipalOf(b))
    requires DueIndex.Earliest(o.deliveries, d) && d.nextAttemptAt <= now
    requires d.event.deliveryId in o.deliveries && E.RewriteFits(cfg, o, d.event.deliveryId, d.(state := Inflight))
    ensures var id := d.event.deliveryId;
            DispatchOnce(cfg, o, b, now, call).post == Some(Post(d, o.(deliveries := o.deliveries[id := d.(state := Inflight)])))
  {
    DueIndex.AnswerIsNextDue(o, now, Some(d));
    DispatchLaws.NextDueIsWaiting(o, now);
    MarksFirst(cfg, o, d);
    hide DueIndex.NextDue, O.MarkInflight, Inv, E.RewriteFits, SettlingOp, Apply, DueIndex.Earliest;
  }

  lemma MarksFirst(cfg: Config, o: O.Outbox, d: Delivery)
    requires d.event.deliveryId in o.deliveries && o.deliveries[d.event.deliveryId] == d && d.state.Pending?
    requires E.RewriteFits(cfg, o, d.event.deliveryId, d.(state := Inflight))
    ensures O.MarkInflight(cfg, o, d.event.deliveryId) == (o.(deliveries := o.deliveries[d.event.deliveryId := d.(state := Inflight)]), Done)
  {
    E.RewriteFitsExactly(cfg, o, d.event.deliveryId, d.(state := Inflight));
    hide O.Used, E.RewriteFits;
  }
}

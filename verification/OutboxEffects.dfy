/** What each transaction of the outbox achieves, and exactly when it can, in terms of the records alone. */
module OutboxEffects {
  import opened Common
  import opened BucketOrder
  import opened OutboxTypes
  import opened Outbox
  import opened OutboxInvariant
  import OutboxLaws
  import StoreAgreement

  // Accepting

  predicate Lapsed(d: Delivery, retention: nat, now: Timestamp) {
    d.quarantinedAt.Some? && d.quarantinedAt.value + retention <= now
  }

  /** Room for one record more of the given bytes. */
  ghost predicate Fits(cfg: Config, o: Outbox, bytes: nat) {
    |o.deliveries| + |o.quarantine| < cfg.maxEvents && Used(cfg, o) + bytes <= cfg.maxBytes
  }

  /** The record an input becomes when it is accepted. */
  function Becomes(o: Outbox, input: Delivery, enqueuedAt: Option<Timestamp>, nextAttemptAt: Option<Timestamp>, now: Timestamp): Delivery {
    Accepted(input, enqueuedAt, nextAttemptAt, o.lastSequence + 1, now)
  }

  lemma PruningMakesRoom(cfg: Config, o: Outbox, bytes: nat, now: Timestamp)
    requires Inv(o) && Fits(cfg, o, bytes)
    ensures Fits(cfg, Pruned(cfg, o, now), bytes)
  {
    PrunedKeeps(cfg, o, now);
    OutboxLaws.FewerRecords(o, Pruned(cfg, o, now));
    OutboxLaws.PrunedWithinBytes(cfg, o, now);
  }

  /** Pruning removes exactly the quarantined records whose retention is over. */
  lemma PrunesExactly(cfg: Config, o: Outbox, now: Timestamp, k: Key)
    ensures var o' := Pruned(cfg, o, now);
            && o'.deliveries == o.deliveries
            && (k in o'.quarantine <==> k in o.quarantine && !Lapsed(o.quarantine[k], cfg.retention, now))
            && (k in o'.quarantine ==> o'.quarantine[k] == o.quarantine[k])
  {
  }

  /**
   A valid input under a new identifier is accepted exactly when it fits, as things are or beside the records whose
   retention is not over, and only when it did not fit as things were does any record leave quarantine.
   */
  lemma AcceptsWhenItFits(cfg: Config, o: Outbox, input: Delivery, enqueuedAt: Option<Timestamp>, nextAttemptAt: Option<Timestamp>, now: Timestamp)
    requires Inv(o) && input.event.deliveryId != [] && input.event.envelope != [] && !Has(o, input.event.deliveryId)
    ensures var (o', r) := Enqueue(cfg, o, input, enqueuedAt, nextAttemptAt, now);
            var bytes := cfg.size(Becomes(o, input, enqueuedAt, nextAttemptAt, now));
            && (r.Done? <==> Fits(cfg, o, bytes) || Fits(cfg, Pruned(cfg, o, now), bytes))
            && (r.Done? <==> Fits(cfg, Pruned(cfg, o, now), bytes))
            && (r.Failed? ==> r.error.OutboxFull?)
            && o'.quarantine == (if Fits(cfg, o, bytes) then o.quarantine else Pruned(cfg, o, now).quarantine)
  {
    hide Inv, Used, Pruned;
    var bytes := cfg.size(Becomes(o, input, enqueuedAt, nextAttemptAt, now));
    PrunedLacks(cfg, o, input.event.deliveryId, now);
    TriesExactly(cfg, o, input, enqueuedAt, nextAttemptAt, now);
    TriesExactly(cfg, Pruned(cfg, o, now), input, enqueuedAt, nextAttemptAt, now);
    hide TryEnqueue, Accepted;
    if Fits(cfg, o, bytes) {
      PruningMakesRoom(cfg, o, bytes, now);
    }
    hide Fits;
  }

  lemma TriesExactly(cfg: Config, o: Outbox, input: Delivery, enqueuedAt: Option<Timestamp>, nextAttemptAt: Option<Timestamp>, now: Timestamp)
    requires !Has(o, input.event.deliveryId)
    ensures var (o', r) := TryEnqueue(cfg, o, input, enqueuedAt, nextAttemptAt, now);
            && r == (if Fits(cfg, o, cfg.size(Becomes(o, input, enqueuedAt, nextAttemptAt, now))) then Done else Failed(OutboxFull))
            && o'.quarantine == o.quarantine
  {
    hide Used;
  }

  lemma PrunedLacks(cfg: Config, o: Outbox, k: Key, now: Timestamp)
    requires !Has(o, k)
    ensures var o' := Pruned(cfg, o, now); !Has(o', k) && o'.lastSequence == o.lastSequence
  {
  }

  /** An invalid input, or one whose identifier is known, is refused and changes nothing. */
  lemma RefusesOthers(cfg: Config, o: Outbox, input: Delivery, enqueuedAt: Option<Timestamp>, nextAttemptAt: Option<Timestamp>, now: Timestamp)
    ensures var e := Enqueue(cfg, o, input, enqueuedAt, nextAttemptAt, now);
            if input.event.deliveryId == [] || input.event.envelope == [] then e == (o, Failed(InvalidInput))
            else Has(o, input.event.deliveryId) ==> e == (o, Failed(DeliveryExists))
  {
    hide Used, Pruned;
  }

  // Rewriting one record

  /** The bytes with one waiting record rewritten. */
  ghost predicate RewriteFits(cfg: Config, o: Outbox, id: Key, d: Delivery)
    requires id in o.deliveries
  {
    Used(cfg, o) - cfg.size(o.deliveries[id]) + cfg.size(d) <= cfg.maxBytes
  }

  lemma RewriteFitsExactly(cfg: Config, o: Outbox, id: Key, d: Delivery)
    requires id in o.deliveries
    ensures Rewrite(cfg, o, id, d).1.Done? <==> RewriteFits(cfg, o, id, d)
    ensures Rewrite(cfg, o, id, d).1.Failed? ==> Rewrite(cfg, o, id, d) == (o, Failed(OutboxFull))
  {
    TotalWithout(cfg.size, o.deliveries, id);
    TotalWith(cfg.size, o.deliveries, id, d);
  }

  /** Marking, retrying and pausing succeed exactly on a waiting record, pending for a mark, whose new form fits. */
  lemma RewritesExactly(cfg: Config, o: Outbox, id: Key, next: Timestamp, failure: AttemptFailure, pause: DispatchPause, now: Timestamp)
    ensures MarkInflight(cfg, o, id).1.Done? <==>
            id in o.deliveries && o.deliveries[id].state.Pending? && RewriteFits(cfg, o, id, o.deliveries[id].(state := Inflight))
    ensures Retry(cfg, o, id, next, failure).1.Done? <==>
            id in o.deliveries && RewriteFits(cfg, o, id, Retried(o.deliveries[id], failure).(nextAttemptAt := next))
    ensures PauseDelivery(cfg, o, id, pause, failure, now).1.Done? <==>
            pause.kind != Other("") && id in o.deliveries && RewriteFits(cfg, o, id, Retried(o.deliveries[id], failure))
  {
    if id in o.deliveries {
      RewriteFitsExactly(cfg, o, id, o.deliveries[id].(state := Inflight));
      RewriteFitsExactly(cfg, o, id, Retried(o.deliveries[id], failure).(nextAttemptAt := next));
      RewriteFitsExactly(cfg, o, id, Retried(o.deliveries[id], failure));
    }
    hide RewriteFits, Used;
  }

  /** A record after one more failed attempt. */
  function Retried(d: Delivery, failure: AttemptFailure): Delivery {
    d.(state := Pending, attempts := d.attempts + 1, last := failure)
  }

  lemma RetriedRecord(cfg: Config, o: Outbox, id: Key, next: Timestamp, failure: AttemptFailure)
    requires Retry(cfg, o, id, next, failure).1.Done?
    ensures id in o.deliveries
    ensures Retry(cfg, o, id, next, failure).0 ==
            o.(deliveries := o.deliveries[id := Retried(o.deliveries[id], failure).(nextAttemptAt := next)])
  {
    hide Used;
  }

  lemma PausedRecord(cfg: Config, o: Outbox, id: Key, pause: DispatchPause, failure: AttemptFailure, now: Timestamp)
    requires PauseDelivery(cfg, o, id, pause, failure, now).1.Done?
    ensures id in o.deliveries
    ensures PauseDelivery(cfg, o, id, pause, failure, now).0 ==
            o.(deliveries := o.deliveries[id := Retried(o.deliveries[id], failure)],
               pause := Some(pause.(deliveryId := id, pausedAt := Some(if pause.pausedAt.Some? then pause.pausedAt.value else now))))
  {
    hide Used;
  }

  /** A pause is cleared exactly when a generation has grown that its kind waits for; an unknown kind is an error. */
  lemma ClearsExactly(o: Outbox, pause: DispatchPause, b: Binding)
    requires o.pause == Some(pause)
    ensures var (o', r) := ClearResolvedPause(o, b);
            && o' == o.(pause := o'.pause) && (o'.pause == None || o'.pause == o.pause)
            && (o'.pause.None? <==>
                  || (pause.kind.Credential? && (b.credentialGeneration > pause.credentialGeneration || b.bindingGeneration > pause.bindingGeneration))
                  || (pause.kind.BindingRejected? && b.bindingGeneration > pause.bindingGeneration))
            && (r.Failed? <==> pause.kind.Other?)
  {
  }

  // Setting aside

  /** What a record looks like after it has been set aside, for each cause. */
  predicate SetAsideFor(cause: Cause, d: Delivery, q: Delivery, now: Timestamp) {
    && q.event == d.event && q.sequence == d.sequence && q.attempts == d.attempts
    && q.state.Quarantined? && q.quarantinedAt == Some(now)
    && match cause
       case ByOperator => q.quarantineReason == CollisionResolved && q.last == d.last
       case ByFailure(reason, failure) => q.quarantineReason == reason && q.last == failure
       case ByReceiver(reason, failure) => q.quarantineReason == reason && q.last == failure.(requestId := d.last.requestId)
       case ByBinding(b) =>
         && q.quarantineReason == (if d.event.installationId == b.installationId then CredentialRebindRequired else InstallationReset)
         && q.last == d.last.(errorCode := BindingChanged, message := BindingChanged)
       case ByRotation =>
         && q.quarantineReason == InstallationRotated
         && q.last == d.last.(errorCode := InstallationRotated, message := InstallationRotated)
  }

  /** The move of exactly the waiting records under some keys. */
  ghost predicate MovesExactly(o: Outbox, o': Outbox, keys: set<Key>, cause: Cause, now: Timestamp) {
    && (forall k :: k in o'.deliveries <==> k in o.deliveries && k !in keys)
    && (forall k | k in o'.deliveries :: o'.deliveries[k] == o.deliveries[k])
    && (forall k | k in o.deliveries && k in keys :: k in o'.quarantine && SetAsideFor(cause, o.deliveries[k], o'.quarantine[k], now))
    && (forall k | k in o.quarantine :: k in o'.quarantine && (k !in o.deliveries ==> o'.quarantine[k] == o.quarantine[k]))
  }

  lemma MovedExactly(o: Outbox, keys: seq<Key>, cause: Cause, now: Timestamp)
    ensures MovesExactly(o, Moved(o, keys, cause, now), Range(keys), cause, now)
  {
    var o' := Moved(o, keys, cause, now);
    forall k | k in o.deliveries && k in Range(keys) ensures k in o'.quarantine && SetAsideFor(cause, o.deliveries[k], o'.quarantine[k], now) {
      assert o'.quarantine[k] == Stamp(cause, o.deliveries[k], now);
    }
    hide Stamp;
  }

  lemma QuarantinedRecord(cfg: Config, o: Outbox, id: Key, reason: Note, failure: AttemptFailure, now: Timestamp)
    requires Quarantine(cfg, o, id, reason, failure, now).1.Done?
    ensures id in o.deliveries
    ensures var o' := Quarantine(cfg, o, id, reason, failure, now).0;
            MovesExactly(o, o', {id}, ByFailure(reason, failure), now) && o'.pause == o.pause
  {
    MovedExactly(o, [id], ByFailure(reason, failure), now);
    assert Range([id]) == {id};
    hide Moved, MoveFits, MovesExactly;
  }

  /** The waiting records of one receiver agent. */
  function OfAgent(o: Outbox, agent: string): set<Key> {
    set k | k in o.deliveries && o.deliveries[k].event.receiverAgentId == agent
  }

  function OfOthers(o: Outbox, b: Binding): set<Key> {
    set k | k in o.deliveries && !(o.deliveries[k].event.ownerId == b.ownerId
                                   && o.deliveries[k].event.receiverAgentId == b.receiverAgentId
                                   && o.deliveries[k].event.installationId == b.installationId)
  }

  lemma ReceiverSetAside(cfg: Config, o: Outbox, agent: string, reason: Note, failure: AttemptFailure, now: Timestamp)
    requires QuarantineByReceiver(cfg, o, agent, reason, failure, now).1.Done?
    ensures MovesExactly(o, QuarantineByReceiver(cfg, o, agent, reason, failure, now).0, OfAgent(o, agent), ByReceiver(reason, failure), now)
  {
    var keys := Matches(o, FromReceiver(agent));
    MovedExactly(o, keys, ByReceiver(reason, failure), now);
    assert Range(keys) == OfAgent(o, agent);
    hide Moved, MoveFits, MovesExactly, Matches;
  }

  /** No agent named is an error of its own; otherwise only room can be missing. */
  lemma AgentIsNeeded(cfg: Config, o: Outbox, agent: string, reason: Note, failure: AttemptFailure, now: Timestamp)
    ensures var (o', r) := QuarantineByReceiver(cfg, o, agent, reason, failure, now);
            && (r == Failed(InvalidInput) <==> agent == "") && (r.Failed? ==> o' == o)
            && (r.Failed? && agent != "" ==> r.error.OutboxFull?)
  {
    hide MoveFits, Moved, Matches;
  }

  /** A scan that runs sets aside exactly the records of other principals, each for the reason that applies to it. */
  lemma OthersSetAside(cfg: Config, o: Outbox, b: Binding, now: Timestamp)
    requires FullReconcile(cfg, o, b, now).1.Done?
    ensures MovesExactly(o, FullReconcile(cfg, o, b, now).0, OfOthers(o, b), ByBinding(b), now)
  {
    var keys := Matches(o, NotFrom(PrincipalOf(b)));
    MovedExactly(o, keys, ByBinding(b), now);
    assert Range(keys) == OfOthers(o, b);
    MovesBeside(o, Moved(o, keys, ByBinding(b), now), Some(PrincipalOf(b)), OfOthers(o, b), ByBinding(b), now);
    hide Moved, MoveFits, MovesExactly, Matches;
  }

  lemma MovesBeside(o: Outbox, m: Outbox, reconciled: Option<Principal>, keys: set<Key>, cause: Cause, now: Timestamp)
    requires MovesExactly(o, m, keys, cause, now)
    ensures MovesExactly(o, m.(reconciled := reconciled), keys, cause, now)
  {
  }

  lemma MovedUses(cfg: Config, o: Outbox, keys: seq<Key>, id: Key, cause: Cause, now: Timestamp)
    requires Inv(o) && id in o.deliveries && id !in keys && cfg.size(Stamp(cause, o.deliveries[id], now)) <= cfg.size(o.deliveries[id])
    ensures Used(cfg, Moved(o, keys + [id], cause, now)) <= Used(cfg, Moved(o, keys, cause, now))
  {
    hide Stamp, Total;
    assert id !in o.quarantine;
    StoreAgreement.OneMoreMoved(o, keys, cause, now, id);
    var a := Moved(o, keys, cause, now);
    StoreAgreement.RemoveTotals(cfg.size, a.deliveries, id);
    StoreAgreement.AddTotals(cfg.size, a.quarantine, id, Stamp(cause, o.deliveries[id], now));
    hide Inv, Moved;
  }

  lemma {:induction false} PrefixesUse(cfg: Config, o: Outbox, keys: seq<Key>, cause: Cause, now: Timestamp, n: nat)
    requires Inv(o) && StoreAgreement.Distinct(keys) && n <= |keys|
    requires forall k | k in keys :: k in o.deliveries && cfg.size(Stamp(cause, o.deliveries[k], now)) <= cfg.size(o.deliveries[k])
    ensures Used(cfg, Moved(o, keys[..n], cause, now)) <= Used(cfg, o)
    decreases n
  {
    hide Inv, Moved, Used, Stamp, StoreAgreement.Distinct;
    if n == 0 {
      StoreAgreement.NothingMoved(o, cause, now);
    } else {
      PrefixesUse(cfg, o, keys, cause, now, n - 1);
      StoreAgreement.DistinctAt(keys, n - 1);
      assert keys[..n] == keys[..n - 1] + [keys[n - 1]];
      MovedUses(cfg, o, keys[..n - 1], keys[n - 1], cause, now);
    }
  }

  /** A move is only ever refused because records grow by it: when none does, all of them move. */
  lemma MovesWhenNothingGrows(cfg: Config, o: Outbox, keys: seq<Key>, cause: Cause, now: Timestamp)
    requires Inv(o) && StoreAgreement.Distinct(keys) && Used(cfg, o) <= cfg.maxBytes
    requires forall k | k in keys :: k in o.deliveries && cfg.size(Stamp(cause, o.deliveries[k], now)) <= cfg.size(o.deliveries[k])
    ensures Move(cfg, o, keys, cause, now) == (Moved(o, keys, cause, now), Done)
  {
    hide Inv, Moved, Used, Stamp, StoreAgreement.Distinct;
    forall n | 0 < n <= |keys| ensures Used(cfg, Moved(o, keys[..n], cause, now)) <= cfg.maxBytes {
      PrefixesUse(cfg, o, keys, cause, now, n);
    }
  }

  /** Deleting succeeds exactly on a known record and touches no other. */
  lemma DeletesExactly(o: Outbox, id: Key)
    requires Inv(o)
    ensures var (o', r) := Delete(o, id);
            && (r.Done? <==> Has(o, id)) && !Has(o', id)
            && (forall k | k != id :: Has(o', k) == Has(o, k) && (Has(o, k) ==> At(o', k) == At(o, k)))
  {
  }

  /** A collision is resolved exactly for the paused delivery that still waits, with its pause. */
  lemma ResolvesExactly(cfg: Config, o: Outbox, id: Key, now: Timestamp)
    ensures var (o', r) := ResolveCollision(cfg, o, id, now);
            var paused := o.pause.Some? && o.pause.value.kind == Collision && o.pause.value.deliveryId == id;
            && (!paused <==> r == Failed(PauseMismatch)) && (paused && id !in o.deliveries <==> r == Failed(DeliveryNotFound))
            && (r.Failed? ==> o' == o)
            && (r.Done? ==> o'.pause.None? && MovesExactly(o, o'.(pause := o.pause), {id}, ByOperator, now))
  {
    MovedExactly(o, [id], ByOperator, now);
    assert Range([id]) == {id};
    MovesPause(o, Moved(o, [id], ByOperator, now), {id}, ByOperator, now);
    hide Moved, MoveFits, MovesExactly;
  }

  lemma MovesPause(o: Outbox, m: Outbox, keys: set<Key>, cause: Cause, now: Timestamp)
    requires MovesExactly(o, m, keys, cause, now)
    ensures MovesExactly(o, m.(pause := None).(pause := o.pause), keys, cause, now)
  {
  }

  /** An incomplete binding is refused, and a cached one is not scanned for. */
  lemma ReconcilesExactly(cfg: Config, o: Outbox, b: Binding, now: Timestamp)
    ensures var incomplete := b.ownerId == "" || b.receiverAgentId == "" || b.installationId == "";
            && (incomplete <==> Reconcile(cfg, o, b, now).1 == Failed(IncompleteBinding))
            && (incomplete ==> Reconcile(cfg, o, b, now).0 == o)
  {
    hide MoveFits, Moved, Matches;
  }

  /** Rotation drops a pause exactly when its delivery is one of those it sets aside, and counts them. */
  lemma RotationDropsPause(cfg: Config, o: Outbox, now: Timestamp)
    requires o.rotation.Some? && o.rotation.value.phase.Intent? && QuarantineRotation(cfg, o, now).1.Done?
    ensures var o' := QuarantineRotation(cfg, o, now).0;
            var oldId := o.rotation.value.oldInstallationId;
            var ofOld := o.pause.Some? && o.pause.value.deliveryId in o.deliveries
                         && o.deliveries[o.pause.value.deliveryId].event.installationId == oldId;
            && o'.pause == (if ofOld then None else o.pause)
            && o'.rotation.Some? && o'.rotation.value.phase.OldBindingQuarantined?
            && o'.rotation.value == o.rotation.value.(phase := OldBindingQuarantined, updatedAt := now, quarantined := |OfInstallation(o, oldId)|)
  {
    hide MoveFits, Moved;
    var oldId := o.rotation.value.oldInstallationId;
    var keys := Matches(o, FromInstallation(oldId));
    StoreAgreement.AscendingAreDistinct(o.deliveries.Keys);
    StoreAgreement.SelectedAreDistinct(Ascending(o.deliveries.Keys), o.deliveries, FromInstallation(oldId));
    CountedOnce(keys);
    assert Range(keys) == OfInstallation(o, oldId);
    hide Matches;
  }

  function OfInstallation(o: Outbox, installationId: string): set<Key> {
    set k | k in o.deliveries && o.deliveries[k].event.installationId == installationId
  }

  lemma {:induction false} CountedOnce(keys: seq<Key>)
    requires StoreAgreement.Distinct(keys)
    ensures |Range(keys)| == |keys|
  {
    if keys != [] {
      var n := |keys| - 1;
      StoreAgreement.DistinctAt(keys, n);
      CountedOnce(keys[..n]);
      assert keys == keys[..n] + [keys[n]];
      assert Range(keys) == Range(keys[..n]) + {keys[n]};
    }
  }

  /** A rotation is begun between two named, different installations, and an unfinished one is taken up as it is. */
  lemma BeginsExactly(o: Outbox, oldId: string, newId: string, reason: string, now: Timestamp)
    ensures var (o', r) := BeginRotation(o, oldId, newId, reason, now);
            var unfinished := o.rotation.Some? && !o.rotation.value.phase.Completed?;
            && (r.Done? <==> oldId != "" && newId != "" && oldId != newId) && (r.Failed? ==> r.error.IdsNotDistinct?)
            && (r.Failed? || unfinished ==> o' == o) && o' == o.(rotation := o'.rotation)
            && (r.Done? && !unfinished ==>
                  o'.rotation == Some(InstallationRotation(oldId, newId, reason, Intent, now, now, 0)))
  {
  }

  /** A journal moves from the phase that is expected and from no other, and is not moved twice. */
  lemma AdvancesExactly(o: Outbox, expected: Phase, next: Phase, now: Timestamp)
    requires o.rotation.Some?
    ensures var (o', r) := AdvanceRotation(o, expected, next, now);
            var phase := o.rotation.value.phase;
            && (r.Done? <==> phase == next || phase == expected) && (r.Failed? ==> r.error.PhaseMismatch?)
            && (r.Failed? || phase == next ==> o' == o) && o' == o.(rotation := o'.rotation)
            && (r.Done? && phase != next ==> o'.rotation == Some(o.rotation.value.(phase := next, updatedAt := now)))
  {
  }

  /** A reopened record is pending and due at once exactly if it was inflight, and otherwise what it was. */
  lemma ReopensExactly(cfg: Config, o: Outbox, now: Timestamp, k: Key)
    ensures var o' := Reopen(cfg, o, now);
            && (k in o'.deliveries <==> k in o.deliveries)
            && (k in o.deliveries && !o.deliveries[k].state.Inflight? ==> o'.deliveries[k] == o.deliveries[k])
            && (k in o.deliveries && o.deliveries[k].state.Inflight? ==>
                  o'.deliveries[k] == o.deliveries[k].(state := Pending, nextAttemptAt := now))
            && o'.pause == o.pause && o'.rotation == o.rotation && o'.reconciled == o.reconciled && o'.lastSequence == o.lastSequence
  {
  }
}

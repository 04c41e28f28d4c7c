/** What every outbox transaction keeps. */
module OutboxInvariant {
  import opened Common
  import opened BucketOrder
  import opened OutboxTypes
  import opened Outbox

  predicate Has(o: Outbox, k: Key) {
    k in o.deliveries || k in o.quarantine
  }

  function At(o: Outbox, k: Key): Delivery
    requires Has(o, k)
  {
    if k in o.deliveries then o.deliveries[k] else o.quarantine[k]
  }

  predicate Waiting(d: Delivery, k: Key, lastSequence: nat) {
    d.event.deliveryId == k && 1 <= d.sequence <= lastSequence && !d.state.Quarantined?
  }

  predicate SetAside(d: Delivery, k: Key, lastSequence: nat) {
    d.event.deliveryId == k && 1 <= d.sequence <= lastSequence && d.state.Quarantined? && d.quarantinedAt.Some?
  }

  /** Each record is under its own identifier, in one bucket, in a state that bucket allows. */
  ghost predicate BucketsConsistent(o: Outbox) {
    && (forall k | k in o.deliveries :: k !in o.quarantine && Waiting(o.deliveries[k], k, o.lastSequence))
    && (forall k | k in o.quarantine :: SetAside(o.quarantine[k], k, o.lastSequence))
  }

  ghost predicate SequencesDistinct(o: Outbox) {
    forall j, k | Has(o, j) && Has(o, k) && j != k :: At(o, j).sequence != At(o, k).sequence
  }

  /** While a principal is cached as reconciled, every waiting record belongs to it. */
  ghost predicate CacheAgrees(o: Outbox) {
    o.reconciled.Some? ==> forall k | k in o.deliveries :: SenderOf(o.deliveries[k]) == o.reconciled.value
  }

  ghost predicate Inv(o: Outbox) {
    BucketsConsistent(o) && SequencesDistinct(o) && CacheAgrees(o)
  }

  /** The records of o' are versions of records of o. */
  ghost predicate Descends(o: Outbox, o': Outbox) {
    forall k | Has(o', k) :: Has(o, k) && SameDelivery(At(o, k), At(o', k))
  }

  lemma DescendantsStayDistinct(o: Outbox, o': Outbox)
    requires SequencesDistinct(o) && Descends(o, o')
    ensures SequencesDistinct(o')
  {
  }

  lemma PrunedKeeps(cfg: Config, o: Outbox, now: Timestamp)
    requires Inv(o)
    ensures Inv(Pruned(cfg, o, now)) && Descends(o, Pruned(cfg, o, now))
  {
    DescendantsStayDistinct(o, Pruned(cfg, o, now));
  }

  lemma AddedKeeps(o: Outbox, id: Key, d: Delivery, reconciled: Option<Principal>)
    requires Inv(o) && !Has(o, id) && d.event.deliveryId == id
    requires d.sequence == o.lastSequence + 1 && !d.state.Quarantined?
    requires reconciled.Some? ==> reconciled == o.reconciled == Some(SenderOf(d))
    ensures Inv(o.(deliveries := o.deliveries[id := d], lastSequence := d.sequence, reconciled := reconciled))
  {
    var o' := o.(deliveries := o.deliveries[id := d], lastSequence := d.sequence, reconciled := reconciled);
    assert forall k | k != id :: Has(o', k) == Has(o, k) && (Has(o, k) ==> At(o', k) == At(o, k));
    assert forall k | Has(o, k) :: At(o, k).sequence <= o.lastSequence;
    assert SequencesDistinct(o');
    assert BucketsConsistent(o');
  }

  lemma TryEnqueueKeeps(cfg: Config, o: Outbox, input: Delivery, enqueuedAt: Option<Timestamp>, nextAttemptAt: Option<Timestamp>, now: Timestamp)
    requires Inv(o)
    ensures Inv(TryEnqueue(cfg, o, input, enqueuedAt, nextAttemptAt, now).0)
  {
    hide Inv, Used;
    var o' := TryEnqueue(cfg, o, input, enqueuedAt, nextAttemptAt, now).0;
    if o' != o {
      AddedKeeps(o, input.event.deliveryId, o'.deliveries[input.event.deliveryId], o'.reconciled);
    }
  }

  lemma RewriteKeeps(cfg: Config, o: Outbox, id: Key, record: Delivery)
    requires Inv(o) && id in o.deliveries
    requires SameDelivery(o.deliveries[id], record) && !record.state.Quarantined?
    ensures var o' := Rewrite(cfg, o, id, record).0; Inv(o') && Descends(o, o')
  {
    var o' := o.(deliveries := o.deliveries[id := record]);
    assert Descends(o, o');
    DescendantsStayDistinct(o, o');
    assert BucketsConsistent(o');
  }

  lemma MovedKeeps(o: Outbox, keys: seq<Key>, cause: Cause, now: Timestamp)
    requires Inv(o)
    requires forall k | k in keys :: k in o.deliveries
    ensures var o' := Moved(o, keys, cause, now); Inv(o') && Descends(o, o') && forall k :: Has(o', k) <==> Has(o, k)
  {
    var o' := Moved(o, keys, cause, now);
    forall k | Has(o', k) ensures Has(o, k) && SameDelivery(At(o, k), At(o', k)) {
      if k in keys {
        assert At(o', k) == Stamp(cause, o.deliveries[k], now);
      }
    }
    DescendantsStayDistinct(o, o');
    forall k | k in o'.quarantine ensures SetAside(o'.quarantine[k], k, o'.lastSequence) {
      if k in keys {
        assert o'.quarantine[k] == Stamp(cause, o.deliveries[k], now);
      }
    }
    assert BucketsConsistent(o');
  }

  lemma ResetKeeps(o: Outbox, now: Timestamp)
    requires Inv(o)
    ensures var o' := ResetInflight(o, now); Inv(o') && Descends(o, o')
  {
    var o' := ResetInflight(o, now);
    assert forall k :: Has(o', k) <==> Has(o, k);
    assert Descends(o, o');
    DescendantsStayDistinct(o, o');
    assert BucketsConsistent(o');
  }

  lemma DeleteKeeps(o: Outbox, id: Key)
    requires Inv(o)
    ensures Inv(Delete(o, id).0)
  {
    var o' := Delete(o, id).0;
    assert Descends(o, o');
    DescendantsStayDistinct(o, o');
  }
}

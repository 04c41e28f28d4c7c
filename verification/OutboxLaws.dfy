/** Bounds, cache and pause laws of the outbox. */
module OutboxLaws {
  import opened Common
  import opened BucketOrder
  import opened OutboxTypes
  import opened Outbox
  import opened OutboxInvariant
  import opened OutboxRuns

  // Storage bounds

  lemma {:induction false} SmallerBucket(size: Delivery -> nat, m: Bucket, m': Bucket)
    requires forall k | k in m' :: k in m && m'[k] == m[k]
    ensures Total(size, m') <= Total(size, m)
    decreases |m|
  {
    if m != map[] {
      var k :| k in m;
      TotalWithout(size, m, k);
      if k in m' {
        TotalWithout(size, m', k);
        SmallerBucket(size, m - {k}, m' - {k});
      } else {
        SmallerBucket(size, m - {k}, m');
      }
    }
  }

  lemma SubsetIsSmaller<T>(a: set<T>, b: set<T>)
    requires a <= b
    ensures |a| <= |b|
  {
    assert b == a + (b - a);
  }

  lemma CountIsKeys(o: Outbox)
    requires Inv(o)
    ensures Count(o) == |o.deliveries.Keys + o.quarantine.Keys|
  {
    assert o.deliveries.Keys !! o.quarantine.Keys;
    assert |o.deliveries.Keys| == |o.deliveries| && |o.quarantine.Keys| == |o.quarantine|;
  }

  lemma FewerRecords(o: Outbox, o': Outbox)
    requires Inv(o) && Inv(o') && NothingNew(o, o')
    ensures Count(o') <= Count(o)
  {
    CountIsKeys(o);
    CountIsKeys(o');
    forall k | k in o'.deliveries.Keys + o'.quarantine.Keys ensures k in o.deliveries.Keys + o.quarantine.Keys {
      assert Has(o', k);
    }
    SubsetIsSmaller(o'.deliveries.Keys + o'.quarantine.Keys, o.deliveries.Keys + o.quarantine.Keys);
  }

  ghost predicate NothingNew(o: Outbox, o': Outbox) {
    forall k :: Has(o', k) ==> Has(o, k)
  }

  lemma MoveWithinBytes(cfg: Config, o: Outbox, keys: seq<Key>, cause: Cause, now: Timestamp)
    requires Used(cfg, o) <= cfg.maxBytes
    ensures Used(cfg, Move(cfg, o, keys, cause, now).0) <= cfg.maxBytes
  {
    if MoveFits(cfg, o, keys, cause, now) {
      assert keys[..|keys|] == keys;
      if keys == [] {
        assert Moved(o, keys, cause, now) == o by {
          assert o.deliveries - Range(keys) == o.deliveries;
        }
      }
    }
  }

  lemma PrunedWithinBytes(cfg: Config, o: Outbox, now: Timestamp)
    ensures Used(cfg, Pruned(cfg, o, now)) <= Used(cfg, o)
  {
    SmallerBucket(cfg.size, o.quarantine, Pruned(cfg, o, now).quarantine);
  }

  lemma AddedTotals(cfg: Config, o: Outbox, id: Key, record: Delivery)
    requires id !in o.deliveries
    ensures Total(cfg.size, o.deliveries[id := record]) == Total(cfg.size, o.deliveries) + cfg.size(record)
    ensures |o.deliveries[id := record]| == |o.deliveries| + 1
  {
    TotalWith(cfg.size, o.deliveries, id, record);
    assert o.deliveries - {id} == o.deliveries;
  }

  lemma TryEnqueueBounded(cfg: Config, o: Outbox, input: Delivery, enqueuedAt: Option<Timestamp>, nextAttemptAt: Option<Timestamp>, now: Timestamp)
    requires Bounded(cfg, o)
    ensures Bounded(cfg, TryEnqueue(cfg, o, input, enqueuedAt, nextAttemptAt, now).0)
  {
    var o' := TryEnqueue(cfg, o, input, enqueuedAt, nextAttemptAt, now).0;
    if o' != o {
      var id := input.event.deliveryId;
      var record := Accepted(input, enqueuedAt, nextAttemptAt, o.lastSequence + 1, now);
      AddedTotals(cfg, o, id, record);
      assert o'.deliveries == o.deliveries[id := record] && o'.quarantine == o.quarantine;
    }
  }

  /** No new record, and no excess of bytes unless there was one before. */
  ghost predicate Contained(cfg: Config, o: Outbox, o': Outbox) {
    NothingNew(o, o') && (Used(cfg, o) <= cfg.maxBytes ==> Used(cfg, o') <= cfg.maxBytes)
  }

  lemma MoveContained(cfg: Config, o: Outbox, keys: seq<Key>, cause: Cause, now: Timestamp)
    ensures Contained(cfg, o, Move(cfg, o, keys, cause, now).0)
  {
    if Used(cfg, o) <= cfg.maxBytes {
      MoveWithinBytes(cfg, o, keys, cause, now);
    }
    assert NothingNew(o, Moved(o, keys, cause, now));
  }

  lemma QuarantineByReceiverContained(cfg: Config, o: Outbox, agent: string, reason: Note, failure: AttemptFailure, now: Timestamp)
    ensures Contained(cfg, o, QuarantineByReceiver(cfg, o, agent, reason, failure, now).0)
  {
    MoveContained(cfg, o, Matches(o, FromReceiver(agent)), ByReceiver(reason, failure), now);
  }

  lemma ReconcileContained(cfg: Config, o: Outbox, b: Binding, now: Timestamp)
    ensures Contained(cfg, o, Reconcile(cfg, o, b, now).0)
  {
    MoveContained(cfg, o, Matches(o, NotFrom(PrincipalOf(b))), ByBinding(b), now);
  }

  lemma QuarantineRotationContained(cfg: Config, o: Outbox, now: Timestamp)
    ensures Contained(cfg, o, QuarantineRotation(cfg, o, now).0)
  {
    if o.rotation.Some? {
      MoveContained(cfg, o, Matches(o, FromInstallation(o.rotation.value.oldInstallationId)), ByRotation, now);
    }
  }

  lemma DeleteContained(cfg: Config, o: Outbox, id: Key)
    ensures Contained(cfg, o, Delete(o, id).0)
  {
    SmallerBucket(cfg.size, o.deliveries, o.deliveries - {id});
    SmallerBucket(cfg.size, o.quarantine, o.quarantine - {id});
  }

  lemma StepContained(cfg: Config, o: Outbox, step: Step)
    requires !step.op.Crash? && !step.op.DoEnqueue?
    ensures Contained(cfg, o, Next(cfg, o, step))
  {
    hide Total, MoveFits, Matches;
    var now := step.now;
    match step.op
    case DoResolveCollision(id) => MoveContained(cfg, o, [id], ByOperator, now);
    case DoQuarantine(id, reason, failure) => MoveContained(cfg, o, [id], ByFailure(reason, failure), now);
    case DoQuarantineByReceiver(agent, reason, failure) => QuarantineByReceiverContained(cfg, o, agent, reason, failure, now);
    case DoReconcile(b) => ReconcileContained(cfg, o, b, now);
    case DoQuarantineRotation => QuarantineRotationContained(cfg, o, now);
    case DoDelete(id) => DeleteContained(cfg, o, id);
    case DoPrune => PrunedWithinBytes(cfg, o, now);
    case _ =>
  }

  /** Only accepting brings a record that was not there, and it brings the one it was given. */
  lemma NewIsAccepted(cfg: Config, o: Outbox, step: Step, k: Key)
    requires Inv(o) && Has(Next(cfg, o, step), k) && !Has(o, k)
    ensures step.op.DoEnqueue? && k in Next(cfg, o, step).deliveries
    ensures Next(cfg, o, step).deliveries[k].event == step.op.input.event
    ensures step.op.input.event.deliveryId == k
  {
    hide Used, Count, Inv;
    if !step.op.DoEnqueue? && !step.op.Crash? {
      OldOnly(cfg, o, step);
    }
  }

  lemma OldOnly(cfg: Config, o: Outbox, step: Step)
    requires !step.op.DoEnqueue? && !step.op.Crash?
    ensures forall k | Has(Next(cfg, o, step), k) :: Has(o, k)
  {
    hide Next;
    StepContained(cfg, o, step);
  }

  /** Every run-time transaction keeps both storage bounds. */
  lemma StepKeepsBounds(cfg: Config, o: Outbox, step: Step)
    requires Inv(o) && Bounded(cfg, o) && !step.op.Crash?
    ensures Bounded(cfg, Next(cfg, o, step))
  {
    hide Total, Inv;
    if step.op.DoEnqueue? {
      var p := Pruned(cfg, o, step.now);
      PrunedKeeps(cfg, o, step.now);
      FewerRecords(o, p);
      PrunedWithinBytes(cfg, o, step.now);
      TryEnqueueBounded(cfg, o, step.op.input, step.op.enqueuedAt, step.op.nextAttemptAt, step.now);
      TryEnqueueBounded(cfg, p, step.op.input, step.op.enqueuedAt, step.op.nextAttemptAt, step.now);
    } else {
      StepContained(cfg, o, step);
      StepSound(cfg, o, step);
      FewerRecords(o, Next(cfg, o, step));
    }
  }

  /** By how much putting inflight records back to pending changes the encoded bytes of a bucket. */
  ghost function Growth(size: Delivery -> nat, m: Bucket, now: Timestamp): int
    decreases |m|
  {
    if m == map[] then 0 else
      var k :| k in m;
      size(Reset(m[k], now)) - size(m[k]) + Growth(size, m - {k}, now)
  }

  /** The quarantined records whose retention is over. */
  function Lapsed(cfg: Config, o: Outbox, now: Timestamp): Bucket {
    map k | k in o.quarantine && Expired(cfg, o.quarantine[k], now) :: o.quarantine[k]
  }

  lemma {:induction false} ResetTotal(size: Delivery -> nat, m: Bucket, m': Bucket, now: Timestamp)
    requires m'.Keys == m.Keys && forall k | k in m :: m'[k] == Reset(m[k], now)
    ensures Total(size, m') == Total(size, m) + Growth(size, m, now)
    decreases |m|
  {
    if m == map[] {
      assert m' == map[];
    } else {
      var k :| k in m && Growth(size, m, now) == size(Reset(m[k], now)) - size(m[k]) + Growth(size, m - {k}, now);
      TotalWithout(size, m, k);
      TotalWithout(size, m', k);
      ResetTotal(size, m - {k}, m' - {k}, now);
    }
  }

  lemma JoinedWithout(a: Bucket, b: Bucket, k: Key)
    requires a.Keys !! b.Keys && k in b
    ensures a + b - {k} == a + (b - {k}) && k in a + b && (a + b)[k] == b[k]
  {
  }

  lemma NothingTotal(size: Delivery -> nat, a: Bucket)
    ensures Total(size, map[]) == 0 && a + map[] == a
  {
    assert a + map[] == a;
  }

  lemma {:induction false} JoinedTotal(size: Delivery -> nat, a: Bucket, b: Bucket)
    requires a.Keys !! b.Keys
    ensures Total(size, a + b) == Total(size, a) + Total(size, b)
    decreases |b|
  {
    hide Total;
    if b == map[] {
      NothingTotal(size, a);
    } else {
      var k :| k in b;
      JoinedWithout(a, b, k);
      TotalWithout(size, b, k);
      TotalWithout(size, a + b, k);
      JoinedTotal(size, a, b - {k});
    }
  }

  lemma ReopenedBytes(cfg: Config, o: Outbox, now: Timestamp)
    ensures Used(cfg, Reopen(cfg, o, now)) == Used(cfg, o) + Growth(cfg.size, o.deliveries, now) - Total(cfg.size, Lapsed(cfg, o, now))
  {
    var o' := Reopen(cfg, o, now);
    ResetTotal(cfg.size, o.deliveries, o'.deliveries, now);
    assert o.quarantine == o'.quarantine + Lapsed(cfg, o, now);
    JoinedTotal(cfg.size, o'.quarantine, Lapsed(cfg, o, now));
  }

  /**
   Reopening keeps the event bound always, and the byte bound exactly when what putting inflight records back adds
   fits into the room there was and the room that expired quarantine leaves.
   */
  lemma ReopenKeepsBounds(cfg: Config, o: Outbox, now: Timestamp)
    requires Inv(o) && Bounded(cfg, o)
    ensures Count(Reopen(cfg, o, now)) <= cfg.maxEvents
    ensures Bounded(cfg, Reopen(cfg, o, now)) <==>
            Used(cfg, o) + Growth(cfg.size, o.deliveries, now) - Total(cfg.size, Lapsed(cfg, o, now)) <= cfg.maxBytes
  {
    hide Total, Growth, Inv;
    StepSound(cfg, o, Step(Crash, now));
    FewerRecords(o, Reopen(cfg, o, now));
    ReopenedBytes(cfg, o, now);
  }

  /** A time on a whole second is written without a fraction, any other with up to ten characters more. */
  function TimeText(t: Timestamp): nat {
    if t % SECOND == 0 then 20 else 30
  }

  /** The state text of a pending record is the shorter one, and still it can grow when its due time is rewritten. */
  function SampleSize(d: Delivery): nat {
    100 + TimeText(d.nextAttemptAt) + if d.state.Inflight? then 8 else 7
  }

  const SAMPLE := Delivery(Event([1], [1], "", "", "", "", "", 0, 0, ""), Inflight, 1, SECOND, SECOND, 0,
                           AttemptFailure(0, Text(""), Text(""), ""), None, Text(""))

  function OneWaiting(d: Delivery): Outbox {
    EMPTY.(deliveries := map[[1] := d], lastSequence := 1)
  }

  lemma OneWaitingUses(cfg: Config, d: Delivery)
    ensures Used(cfg, OneWaiting(d)) == cfg.size(d) && Count(OneWaiting(d)) == 1
  {
    TotalWith(cfg.size, map[], [1], d);
    assert map[[1] := d] == map[][[1] := d];
  }

  lemma OneWaitingFits(d: Delivery)
    requires d.event.deliveryId == [1] && d.sequence == 1 && !d.state.Quarantined?
    ensures Inv(OneWaiting(d))
  {
  }

  lemma OneReopened(cfg: Config, d: Delivery, now: Timestamp)
    ensures Reopen(cfg, OneWaiting(d), now) == OneWaiting(Reset(d, now))
  {
    assert Reopen(cfg, OneWaiting(d), now).quarantine == map[];
  }

  /**
   A full outbox whose inflight record was due on a whole second passes its byte bound when reopened between seconds,
   although the word for pending is shorter than the one for inflight.
   */
  lemma ReopenCanExceedBytes() returns (cfg: Config, o: Outbox, now: Timestamp)
    ensures Inv(o) && Bounded(cfg, o) && !Bounded(cfg, Reopen(cfg, o, now))
    ensures forall d: Delivery | d.state.Inflight? :: cfg.size(d.(state := Pending)) < cfg.size(d)
  {
    cfg := Config(1, 128, 0, SampleSize);
    o := OneWaiting(SAMPLE);
    now := SECOND + 1;
    OneWaitingFits(SAMPLE);
    OneReopened(cfg, SAMPLE, now);
    OneWaitingUses(cfg, SAMPLE);
    OneWaitingUses(cfg, Reset(SAMPLE, now));
    hide Inv, Used, OneWaiting, Reopen, Count;
    assert SampleSize(SAMPLE) == 128 && SampleSize(Reset(SAMPLE, now)) == 137;
  }

  // The reconciled-binding cache

  lemma NoFirst(keys: seq<Key>)
    requires keys != []
    ensures exists k :: k in keys
  {
    assert keys[0] in keys;
  }

  /** A scan that finds nothing to move changes only the cache. */
  lemma NothingToMove(cfg: Config, o: Outbox, b: Binding, now: Timestamp)
    requires forall k | k in o.deliveries :: SenderOf(o.deliveries[k]) == PrincipalOf(b)
    ensures FullReconcile(cfg, o, b, now) == (o.(reconciled := Some(PrincipalOf(b))), Done)
  {
    var keys := Matches(o, NotFrom(PrincipalOf(b)));
    assert forall k :: k !in keys;
    assert |keys| == 0 by {
      if |keys| > 0 {
        NoFirst(keys);
      }
    }
    assert Moved(o, keys, ByBinding(b), now) == o by {
      assert o.deliveries - Range(keys) == o.deliveries;
      assert Moved(o, keys, ByBinding(b), now).quarantine == o.quarantine;
    }
  }

  /** When the cache names the binding, the scan it skips would have found nothing to move. */
  lemma FastPathAgrees(cfg: Config, o: Outbox, b: Binding, now: Timestamp)
    requires Inv(o) && o.reconciled == Some(PrincipalOf(b))
    ensures FullReconcile(cfg, o, b, now) == (o, Done)
  {
    NothingToMove(cfg, o, b, now);
  }

  /** Reconciling always ends with every waiting record under the binding, scan or no scan. */
  lemma ReconcileAgrees(cfg: Config, o: Outbox, b: Binding, now: Timestamp)
    requires Inv(o) && Reconcile(cfg, o, b, now).1.Done?
    ensures var o' := Reconcile(cfg, o, b, now).0;
            && o'.reconciled == Some(PrincipalOf(b))
            && (forall k | k in o'.deliveries :: SenderOf(o'.deliveries[k]) == PrincipalOf(b))
            && (forall k | k in o.deliveries && SenderOf(o.deliveries[k]) == PrincipalOf(b) :: k in o'.deliveries && o'.deliveries[k] == o.deliveries[k])
            && (forall k | k in o.deliveries && SenderOf(o.deliveries[k]) != PrincipalOf(b) :: k in o'.quarantine)
  {
    FullReconcileAgrees(o, b, now);
    ReconcileStep(cfg, o, b, Step(DoReconcile(b), now));
  }

  /** Only accepting a foreign record drops the cache entry, and only reconciling sets one. */
  lemma CacheChanges(cfg: Config, o: Outbox, step: Step)
    ensures var o' := Next(cfg, o, step);
            || o'.reconciled == o.reconciled
            || (step.op.DoReconcile? && o'.reconciled == Some(PrincipalOf(step.op.binding)))
            || (step.op.DoEnqueue? && o'.reconciled.None? && o.reconciled != Some(SenderOf(step.op.input))
                && step.op.input.event.deliveryId in o'.deliveries)
  {
    hide MoveFits, Matches, Used, Count;
  }

  // The dispatch pause

  /**
   A stored pause gives way only to a larger generation, its own collision resolution, rotation setting its delivery
   aside, or a pause stored over it for a delivery that is waiting.
   */
  lemma PauseChanges(cfg: Config, o: Outbox, step: Step)
    requires o.pause.Some? && Next(cfg, o, step).pause != o.pause
    ensures var pause := o.pause.value;
            var o' := Next(cfg, o, step);
            match step.op
            case DoClearPause(b) =>
              && o'.pause.None?
              && (|| (b.bindingGeneration > pause.bindingGeneration && (pause.kind.Credential? || pause.kind.BindingRejected?))
                  || (b.credentialGeneration > pause.credentialGeneration && pause.kind.Credential?))
            case DoResolveCollision(id) => o'.pause.None? && pause.kind.Collision? && pause.deliveryId == id && id in o'.quarantine
            case DoQuarantineRotation => o'.pause.None? && pause.deliveryId in o.deliveries && pause.deliveryId in o'.quarantine
            case DoPause(id, _, _) => o'.pause.Some? && o'.pause.value.deliveryId == id && id in o.deliveries && o'.deliveries[id].state.Pending?
            case _ => false
  {
    hide MoveFits, Used, Count;
    if step.op.DoResolveCollision? || step.op.DoQuarantineRotation? {
      assert o.pause.value.deliveryId in o.deliveries;
    }
  }
}

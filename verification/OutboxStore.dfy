/** The durable store: the outbox with its due index and counters kept up to date step by step. */
module OutboxStore {
  import opened Common
  import opened BucketOrder
  import opened OutboxTypes
  import O = Outbox
  import opened OutboxInvariant
  import opened DueIndex
  import opened StoreAgreement

  class Store {
    const cfg: Config
    var deliveries: O.Bucket
    var quarantine: O.Bucket
    var due: Index
    var lastSequence: nat
    var count: int
    var used: int
    var pause: Option<DispatchPause>
    var rotation: Option<InstallationRotation>
    var reconciled: Option<Principal>

    ghost function View(): O.Outbox
      reads this
    {
      O.Outbox(deliveries, quarantine, lastSequence, pause, rotation, reconciled)
    }

    /** The records are consistent, and the index, the count and the bytes agree with them. */
    ghost predicate Valid()
      reads this
    {
      Agrees(cfg, View(), due, count, used)
    }

    constructor (cfg: Config)
      ensures Valid() && View() == O.EMPTY && this.cfg == cfg
    {
      this.cfg := cfg;
      deliveries, quarantine, due, lastSequence, count, used := map[], map[], map[], 0, 0, 0;
      pause, rotation, reconciled := None, None, None;
    }

    /** Refuses negative counters; the callers show that they never meet that branch. */
    method WriteCounters(newCount: int, newUsed: int) returns (ok: bool)
      modifies this`count, this`used
      ensures ok <==> newCount >= 0 && newUsed >= 0
      ensures ok ==> count == newCount && used == newUsed
      ensures !ok ==> count == old(count) && used == old(used)
    {
      ok := newCount >= 0 && newUsed >= 0;
      if ok {
        count, used := newCount, newUsed;
      }
    }

    method TryEnqueue(input: Delivery, enqueuedAt: Option<Timestamp>, nextAttemptAt: Option<Timestamp>, now: Timestamp) returns (r: Reply)
      requires Valid()
      modifies this
      ensures Valid() && (View(), r) == O.TryEnqueue(cfg, old(View()), input, enqueuedAt, nextAttemptAt, now)
    {
      hide Agrees, KeyOf, O.Used, O.Count, SenderOf, O.Accepted;
      AgreementIsPositive(cfg, View(), due, count, used);
      var id := input.event.deliveryId;
      if id in deliveries || id in quarantine {
        return Failed(DeliveryExists);
      }
      var record := O.Accepted(input, enqueuedAt, nextAttemptAt, lastSequence + 1, now);
      if count + 1 > cfg.maxEvents || used + cfg.size(record) > cfg.maxBytes {
        return Failed(OutboxFull);
      }
      AcceptedRecord(input, enqueuedAt, nextAttemptAt, lastSequence + 1, now);
      var kept := reconciled;
      if kept.Some? && kept.value != SenderOf(input) {
        kept := None;
      }
      Added(cfg, View(), due, count, used, id, record, kept);
      reconciled := kept;
      lastSequence := lastSequence + 1;
      deliveries := deliveries[id := record];
      due := due[KeyOf(record) := id];
      var ok := WriteCounters(count + 1, used + cfg.size(record));
      assert ok;
      r := Done;
    }

    static lemma AcceptedRecord(input: Delivery, enqueuedAt: Option<Timestamp>, nextAttemptAt: Option<Timestamp>, sequence: nat, now: Timestamp)
      ensures var d := O.Accepted(input, enqueuedAt, nextAttemptAt, sequence, now);
              d.event == input.event && SenderOf(d) == SenderOf(input) && d.sequence == sequence && d.state.Pending?
    {
    }

    method Enqueue(input: Delivery, enqueuedAt: Option<Timestamp>, nextAttemptAt: Option<Timestamp>, now: Timestamp) returns (r: Reply)
      requires Valid()
      modifies this
      ensures Valid() && (View(), r) == O.Enqueue(cfg, old(View()), input, enqueuedAt, nextAttemptAt, now)
    {
      hide Agrees, O.TryEnqueue, O.Pruned;
      if input.event.deliveryId == [] || input.event.envelope == [] {
        return Failed(InvalidInput);
      }
      r := TryEnqueue(input, enqueuedAt, nextAttemptAt, now);
      if r == Failed(OutboxFull) {
        FullChangesNothing(cfg, old(View()), input, enqueuedAt, nextAttemptAt, now);
        PruneQuarantine(now);
        r := TryEnqueue(input, enqueuedAt, nextAttemptAt, now);
      }
    }

    static lemma FullChangesNothing(cfg: Config, o: O.Outbox, input: Delivery, enqueuedAt: Option<Timestamp>, nextAttemptAt: Option<Timestamp>, now: Timestamp)
      ensures var r := O.TryEnqueue(cfg, o, input, enqueuedAt, nextAttemptAt, now); r.1.Failed? ==> r.0 == o
    {
    }

    method PruneQuarantine(now: Timestamp)
      requires Valid()
      modifies this
      ensures Valid() && View() == O.Pruned(cfg, old(View()), now)
    {
      hide Agrees, Exact, O.Expired, O.Pruned, O.Used, O.Count, PrunedExcept;
      ghost var o := View();
      PruneStarts(cfg, o, now);
      var newCount, newUsed, kept, ahead := count, used, quarantine, quarantine.Keys;
      while ahead != {}
        invariant View() == o && ahead <= quarantine.Keys
        invariant PrunedExcept(cfg, o, now, ahead) == o.(quarantine := kept)
        invariant Agrees(cfg, PrunedExcept(cfg, o, now, ahead), due, newCount, newUsed)
      {
        var key := First(ahead);
        PrunedOne(cfg, o, now, ahead, key, due, newCount, newUsed);
        if O.Expired(cfg, quarantine[key], now) {
          kept := kept - {key};
          newCount := newCount - 1;
          newUsed := newUsed - cfg.size(quarantine[key]);
        }
        ahead := ahead - {key};
      }
      AgreementIsPositive(cfg, PrunedExcept(cfg, o, now, ahead), due, newCount, newUsed);
      quarantine := kept;
      var ok := WriteCounters(newCount, newUsed);
      assert ok;
    }

    method NextDue(now: Timestamp) returns (r: Option<Delivery>)
      requires Valid() && lastSequence < SEQUENCE_LIMIT
      ensures NextDueAnswer(deliveries, now, r)
      ensures r == DueIndex.NextDue(View(), now)
    {
      if due == map[] {
        EmptyIndex(deliveries, due);
        r := None;
      } else {
        FirstKeyIsEarliest(View(), due);
        var key := First(due.Keys);
        r := if DueTimestamp(key) > now then None else Some(deliveries[due[key]]);
      }
      AnswerIsNextDue(View(), now, r);
    }

    /** The shared body of the operations that rewrite one record. */
    method Rewrite(id: Key, record: Delivery, makeDue: bool) returns (r: Reply)
      requires Valid() && id in deliveries
      requires SameDelivery(deliveries[id], record) && !record.state.Quarantined? && (makeDue <==> record.state.Pending?)
      modifies this`deliveries, this`due, this`count, this`used
      ensures Valid() && (View(), r) == O.Rewrite(cfg, old(View()), id, record)
    {
      hide Agrees, KeyOf, O.Used, O.Count, SameDelivery;
      var oldKey := KeyOf(deliveries[id]);
      var newUsed := used - cfg.size(deliveries[id]) + cfg.size(record);
      Rewritten(cfg, View(), due, count, used, id, record);
      if newUsed > cfg.maxBytes {
        return Failed(OutboxFull);
      }
      due := due - {oldKey};
      if makeDue {
        due := due[KeyOf(record) := id];
      }
      deliveries := deliveries[id := record];
      AgreementIsPositive(cfg, View(), due, count, newUsed);
      var ok := WriteCounters(count, newUsed);
      assert ok;
      r := Done;
    }

    method MarkInflight(id: Key) returns (r: Reply)
      requires Valid()
      modifies this
      ensures Valid() && (View(), r) == O.MarkInflight(cfg, old(View()), id)
    {
      hide Agrees, O.Used, O.Rewrite;
      if id !in deliveries {
        return Failed(DeliveryNotFound);
      }
      if !deliveries[id].state.Pending? {
        return Failed(NotPending);
      }
      r := Rewrite(id, deliveries[id].(state := Inflight), false);
    }

    method Retry(id: Key, next: Timestamp, failure: AttemptFailure) returns (r: Reply)
      requires Valid()
      modifies this
      ensures Valid() && (View(), r) == O.Retry(cfg, old(View()), id, next, failure)
    {
      hide Agrees, O.Used, O.Rewrite;
      if id !in deliveries {
        return Failed(DeliveryNotFound);
      }
      var record := deliveries[id];
      r := Rewrite(id, record.(state := Pending, attempts := record.attempts + 1, nextAttemptAt := next, last := failure), true);
    }

    method PauseDelivery(id: Key, request: DispatchPause, failure: AttemptFailure, now: Timestamp) returns (r: Reply)
      requires Valid()
      modifies this
      ensures Valid() && (View(), r) == O.PauseDelivery(cfg, old(View()), id, request, failure, now)
    {
      hide Agrees, O.Used, CacheAgrees;
      if request.kind == Other("") {
        return Failed(PauseKindRequired);
      }
      if id !in deliveries {
        return Failed(DeliveryNotFound);
      }
      var record := deliveries[id];
      r := Rewrite(id, record.(state := Pending, attempts := record.attempts + 1, last := failure), true);
      if r.Done? {
        var stored := request.(deliveryId := id, pausedAt := Some(if request.pausedAt.Some? then request.pausedAt.value else now));
        Beside(cfg, View(), View().(pause := Some(stored)), due, count, used);
        pause := Some(stored);
      }
    }

    method ClearResolvedPause(binding: Binding) returns (r: Reply)
      requires Valid()
      modifies this`pause
      ensures Valid() && (View(), r) == O.ClearResolvedPause(old(View()), binding)
    {
      hide Agrees, CacheAgrees;
      if pause.None? {
        return Done;
      }
      var cleared := false;
      match pause.value.kind {
        case Credential =>
          cleared := binding.credentialGeneration > pause.value.credentialGeneration || binding.bindingGeneration > pause.value.bindingGeneration;
        case BindingRejected =>
          cleared := binding.bindingGeneration > pause.value.bindingGeneration;
        case Collision =>
        case Other(_) =>
          return Failed(UnknownPauseKind);
      }
      if cleared {
        Beside(cfg, View(), View().(pause := None), due, count, used);
        pause := None;
      }
      r := Done;
    }

    /** The loop every operation that sets records aside runs over the keys it collected. */
    method MoveAll(keys: seq<Key>, cause: O.Cause, now: Timestamp) returns (r: Reply)
      requires Valid() && Distinct(keys)
      requires Within(keys, View())
      modifies this`deliveries, this`quarantine, this`due, this`count, this`used
      ensures Valid() && (View(), r) == O.Move(cfg, old(View()), keys, cause, now)
    {
      ghost var o := View();
      hide Agrees, Inv, Within, KeyOf, O.Used, O.Count, O.Moved, O.MoveFits, O.Stamp, PrefixesFit, Distinct;
      AgreementIsConsistent(cfg, o, due, count, used);
      NothingMoved(o, cause, now);
      AllPrefixes(cfg, o, keys, cause, now);
      var newDeliveries, newQuarantine, newDue, newUsed := deliveries, quarantine, due, used;
      for i := 0 to |keys|
        invariant View() == o && Valid()
        invariant O.Moved(o, keys[..i], cause, now) == o.(deliveries := newDeliveries, quarantine := newQuarantine)
        invariant Agrees(cfg, O.Moved(o, keys[..i], cause, now), newDue, count, newUsed)
        invariant PrefixesFit(cfg, o, keys, cause, now, i)
      {
        var id := keys[i];
        DistinctAt(keys, i);
        PrefixWithin(keys, o, i);
        MovedOne(cfg, o, keys[..i], id, cause, now, newDue, count, newUsed);
        PrefixFitting(cfg, o, keys, cause, now, i);
        var record := deliveries[id];
        var stamped := O.Stamp(cause, record, now);
        newDue := newDue - {KeyOf(record)};
        newUsed := newUsed - cfg.size(record) + cfg.size(stamped);
        if newUsed > cfg.maxBytes {
          return Failed(OutboxFull);
        }
        newQuarantine := newQuarantine[id := stamped];
        newDeliveries := newDeliveries - {id};
      }
      assert keys[..|keys|] == keys;
      AgreementIsPositive(cfg, O.Moved(o, keys, cause, now), newDue, count, newUsed);
      deliveries, quarantine, due := newDeliveries, newQuarantine, newDue;
      var ok := WriteCounters(count, newUsed);
      assert ok;
      r := Done;
    }

    /** The ForEach pass that collects what the following loop moves. */
    method Collect(f: O.Filter) returns (keys: seq<Key>)
      ensures keys == O.Matches(View(), f)
      ensures Distinct(keys) && Within(keys, View())
    {
      hide Ascending, O.Wants, Distinct;
      var order := Ascending(deliveries.Keys);
      AscendingAreDistinct(deliveries.Keys);
      SelectedAreDistinct(order, deliveries, f);
      keys := [];
      for i := 0 to |order|
        invariant keys == O.Select(order[..i], deliveries, f)
      {
        var key := order[i];
        assert key in order;
        assert order[..i + 1][..i] == order[..i];
        if O.Wants(f, deliveries[key]) {
          keys := keys + [key];
        }
      }
      assert order[..|order|] == order;
    }

    method ResolveCollision(id: Key, now: Timestamp) returns (r: Reply)
      requires Valid()
      modifies this
      ensures Valid() && (View(), r) == O.ResolveCollision(cfg, old(View()), id, now)
    {
      hide Agrees, O.Used, O.MoveFits, O.Moved, CacheAgrees;
      if pause.None? || pause.value.kind != Collision || pause.value.deliveryId != id {
        return Failed(PauseMismatch);
      }
      if id !in deliveries {
        return Failed(DeliveryNotFound);
      }
      r := MoveAll([id], O.ByOperator, now);
      if r.Done? {
        Beside(cfg, View(), View().(pause := None), due, count, used);
        pause := None;
      }
    }

    method Quarantine(id: Key, reason: Note, failure: AttemptFailure, now: Timestamp) returns (r: Reply)
      requires Valid()
      modifies this
      ensures Valid() && (View(), r) == O.Quarantine(cfg, old(View()), id, reason, failure, now)
    {
      hide Agrees, O.Move;
      if id !in deliveries {
        return Failed(DeliveryNotFound);
      }
      r := MoveAll([id], O.ByFailure(reason, failure), now);
    }

    /** The second result is the number of records moved. */
    method QuarantineByReceiver(agent: string, reason: Note, failure: AttemptFailure, now: Timestamp) returns (r: Reply, moved: nat)
      requires Valid()
      modifies this
      ensures Valid() && (View(), r) == O.QuarantineByReceiver(cfg, old(View()), agent, reason, failure, now)
      ensures moved == if r.Done? then |O.Matches(old(View()), O.FromReceiver(agent))| else 0
    {
      hide Agrees, O.Move, O.Matches, Distinct;
      if agent == "" {
        return Failed(InvalidInput), 0;
      }
      var keys := Collect(O.FromReceiver(agent));
      r := MoveAll(keys, O.ByReceiver(reason, failure), now);
      moved := if r.Done? then |keys| else 0;
    }

    method ReconcileBinding(binding: Binding, now: Timestamp) returns (r: Reply)
      requires Valid()
      modifies this
      ensures Valid() && (View(), r) == O.Reconcile(cfg, old(View()), binding, now)
    {
      hide Agrees, O.MoveFits, O.Moved, O.Matches, O.Used, Distinct, CacheAgrees;
      if !O.Complete(binding) {
        return Failed(IncompleteBinding);
      }
      if reconciled == Some(PrincipalOf(binding)) {
        return Done;
      }
      var keys := Collect(O.NotFrom(PrincipalOf(binding)));
      r := MoveAll(keys, O.ByBinding(binding), now);
      if r.Done? {
        ScanAgrees(old(View()), binding, now);
        Beside(cfg, View(), View().(reconciled := Some(PrincipalOf(binding))), due, count, used);
        reconciled := Some(PrincipalOf(binding));
      }
    }

    static lemma ScanAgrees(o: O.Outbox, b: Binding, now: Timestamp)
      ensures CacheAgrees(O.Moved(o, O.Matches(o, O.NotFrom(PrincipalOf(b))), O.ByBinding(b), now).(reconciled := Some(PrincipalOf(b))))
    {
      O.FullReconcileAgrees(o, b, now);
    }

    method BeginInstallationRotation(oldId: string, newId: string, reason: string, now: Timestamp) returns (r: Reply)
      requires Valid()
      modifies this`rotation
      ensures Valid() && (View(), r) == O.BeginRotation(old(View()), oldId, newId, reason, now)
    {
      hide Agrees, CacheAgrees;
      if oldId == "" || newId == "" || oldId == newId {
        return Failed(IdsNotDistinct);
      }
      if rotation.None? || rotation.value.phase == Completed {
        var journal := InstallationRotation(oldId, newId, reason, Intent, now, now, 0);
        Beside(cfg, View(), View().(rotation := Some(journal)), due, count, used);
        rotation := Some(journal);
      }
      r := Done;
    }

    method QuarantineInstallationRotation(now: Timestamp) returns (r: Reply)
      requires Valid()
      modifies this
      ensures Valid() && (View(), r) == O.QuarantineRotation(cfg, old(View()), now)
    {
      hide Agrees, O.MoveFits, O.Moved, O.Matches, O.Used, Distinct, CacheAgrees;
      if rotation.None? {
        return Failed(JournalMissing);
      }
      if rotation.value.phase != Intent {
        return Done;
      }
      var keys := Collect(O.FromInstallation(rotation.value.oldInstallationId));
      r := MoveAll(keys, O.ByRotation, now);
      if r.Done? {
        MovedFrame(old(View()), keys, O.ByRotation, now);
        var journal := rotation.value.(phase := OldBindingQuarantined, quarantined := |keys|, updatedAt := now);
        var remaining := if pause.Some? && pause.value.deliveryId in keys then None else pause;
        Beside(cfg, View(), View().(rotation := Some(journal), pause := remaining), due, count, used);
        pause := remaining;
        rotation := Some(journal);
      }
    }

    static lemma MovedFrame(o: O.Outbox, keys: seq<Key>, cause: O.Cause, now: Timestamp)
      ensures var m := O.Moved(o, keys, cause, now); m == o.(deliveries := m.deliveries, quarantine := m.quarantine)
    {
    }

    method AdvanceInstallationRotation(expected: Phase, next: Phase, now: Timestamp) returns (r: Reply)
      requires Valid()
      modifies this`rotation
      ensures Valid() && (View(), r) == O.AdvanceRotation(old(View()), expected, next, now)
    {
      hide Agrees, CacheAgrees;
      if rotation.None? {
        return Failed(JournalMissing);
      }
      if rotation.value.phase == next {
        return Done;
      }
      if rotation.value.phase != expected {
        return Failed(PhaseMismatch);
      }
      var journal := rotation.value.(phase := next, updatedAt := now);
      Beside(cfg, View(), View().(rotation := Some(journal)), due, count, used);
      rotation := Some(journal);
      r := Done;
    }

    method Delete(id: Key) returns (r: Reply)
      requires Valid()
      modifies this
      ensures Valid() && (View(), r) == O.Delete(old(View()), id)
    {
      hide Agrees, KeyOf, O.Used, O.Count;
      if id in deliveries {
        var record := deliveries[id];
        DeletedWaiting(cfg, View(), due, count, used, id);
        due := due - {KeyOf(record)};
        deliveries := deliveries - {id};
        AgreementIsPositive(cfg, View(), due, count - 1, used - cfg.size(record));
        var ok := WriteCounters(count - 1, used - cfg.size(record));
        assert ok;
        return Done;
      }
      if id in quarantine {
        var record := quarantine[id];
        DeletedAside(cfg, View(), due, count, used, id);
        quarantine := quarantine - {id};
        AgreementIsPositive(cfg, View(), due, count - 1, used - cfg.size(record));
        var ok := WriteCounters(count - 1, used - cfg.size(record));
        assert ok;
        return Done;
      }
      r := Failed(DeliveryNotFound);
    }

    method Sum(bucket: O.Bucket) returns (n: nat, bytes: nat)
      ensures n == |bucket| && bytes == O.Total(cfg.size, bucket)
    {
      n, bytes := 0, 0;
      var rest := bucket;
      assert O.Total(cfg.size, map[]) == 0;
      hide O.Total;
      while rest != map[]
        invariant rest.Keys <= bucket.Keys && forall k | k in rest :: rest[k] == bucket[k]
        invariant n + |rest| == |bucket| && bytes + O.Total(cfg.size, rest) == O.Total(cfg.size, bucket)
        decreases |rest|
      {
        var key := First(rest.Keys);
        RemoveTotals(cfg.size, rest, key);
        n := n + 1;
        bytes := bytes + cfg.size(rest[key]);
        rest := rest - {key};
      }
    }

    method RebuildCounters()
      modifies this`count, this`used
      ensures count == O.Count(View()) && used == O.Used(cfg, View())
    {
      hide O.Total;
      var n, bytes := Sum(deliveries);
      var m, more := Sum(quarantine);
      var ok := WriteCounters(n + m, bytes + more);
      assert ok;
    }

    method ResetInflight(now: Timestamp)
      requires Inv(View())
      modifies this
      ensures Valid() && View() == O.ResetInflight(old(View()), now)
    {
      ghost var o := View();
      hide Inv, Agrees, Exact, KeyOf, ResetAmong, O.Count, O.Used, O.ResetInflight;
      var records, newDue: Index, ahead := deliveries, map[], deliveries.Keys;
      NothingReset(o.deliveries, now);
      assert o.deliveries.Keys - ahead == {};
      while ahead != {}
        invariant View() == o && ahead <= deliveries.Keys && records.Keys == deliveries.Keys
        invariant forall k | k in ahead :: records[k] == deliveries[k]
        invariant forall k | k in deliveries && k !in ahead :: records[k] == O.Reset(deliveries[k], now)
        invariant Exact(ResetAmong(o.deliveries, now, o.deliveries.Keys - ahead), newDue)
      {
        var key := First(ahead);
        var record := records[key];
        if record.state.Inflight? {
          record := record.(state := Pending, nextAttemptAt := now);
        }
        ResetOne(o, now, o.deliveries.Keys - ahead, key, newDue);
        assert record.state.Pending?;
        assert o.deliveries.Keys - ahead + {key} == o.deliveries.Keys - (ahead - {key});
        records := records[key := record];
        newDue := newDue[KeyOf(record) := key];
        ahead := ahead - {key};
      }
      assert o.deliveries.Keys - ahead == o.deliveries.Keys;
      ResetEnds(cfg, o, now, newDue);
      AllReset(o, now, records);
      deliveries, due := records, newDue;
      RebuildCounters();
    }

    static lemma AllReset(o: O.Outbox, now: Timestamp, records: O.Bucket)
      requires records.Keys == o.deliveries.Keys && forall k | k in o.deliveries :: records[k] == O.Reset(o.deliveries[k], now)
      ensures O.ResetInflight(o, now) == o.(deliveries := records)
    {
      assert O.ResetInflight(o, now).deliveries == records;
    }

    /** Opening the file again after a crash: index and counters are rebuilt whatever they were. */
    method Reopen(now: Timestamp)
      requires Inv(View())
      modifies this
      ensures Valid() && View() == O.Reopen(cfg, old(View()), now)
    {
      hide Inv, Agrees, O.ResetInflight, O.Pruned, O.Count, O.Used;
      RebuildCounters();
      ResetInflight(now);
      PruneQuarantine(now);
    }
  }
}

/** Index and counters that agree with the records, and how each kind of update keeps them so. */
module StoreAgreement {
  import opened Common
  import opened BucketOrder
  import opened OutboxTypes
  import opened Outbox
  import opened OutboxInvariant
  import opened DueIndex

  type Index = map<Key, Key>

  ghost predicate Agrees(cfg: Config, o: Outbox, due: Index, count: int, used: int) {
    Inv(o) && Exact(o.deliveries, due) && count == Count(o) && used == Used(cfg, o)
  }

  lemma AgreementIsConsistent(cfg: Config, o: Outbox, due: Index, count: int, used: int)
    requires Agrees(cfg, o, due, count, used)
    ensures Inv(o)
  {
  }

  lemma AgreementIsPositive(cfg: Config, o: Outbox, due: Index, count: int, used: int)
    requires Agrees(cfg, o, due, count, used)
    ensures count == Count(o) >= 0 && used == Used(cfg, o) >= 0
  {
  }

  lemma AddTotals(size: Delivery -> nat, m: Bucket, id: Key, d: Delivery)
    requires id !in m
    ensures Total(size, m[id := d]) == Total(size, m) + size(d) && |m[id := d]| == |m| + 1
  {
    TotalWith(size, m, id, d);
    assert m - {id} == m;
  }

  lemma RemoveTotals(size: Delivery -> nat, m: Bucket, id: Key)
    requires id in m
    ensures Total(size, m - {id}) == Total(size, m) - size(m[id]) && |m - {id}| == |m| - 1
  {
    TotalWithout(size, m, id);
    assert (m - {id}).Keys == m.Keys - {id};
  }

  /** Only fields beside the two buckets change. */
  lemma Beside(cfg: Config, o: Outbox, o': Outbox, due: Index, count: int, used: int)
    requires Agrees(cfg, o, due, count, used)
    requires o'.deliveries == o.deliveries && o'.quarantine == o.quarantine && o'.lastSequence == o.lastSequence
    requires o'.reconciled == o.reconciled || CacheAgrees(o')
    ensures Agrees(cfg, o', due, count, used)
  {
    assert forall k :: Has(o', k) == Has(o, k) && (Has(o, k) ==> At(o', k) == At(o, k));
    assert SequencesDistinct(o');
  }

  lemma Added(cfg: Config, o: Outbox, due: Index, count: int, used: int, id: Key, d: Delivery, reconciled: Option<Principal>)
    requires Agrees(cfg, o, due, count, used)
    requires !Has(o, id) && d.event.deliveryId == id && d.sequence == o.lastSequence + 1 && d.state.Pending?
    requires reconciled.Some? ==> reconciled == o.reconciled == Some(SenderOf(d))
    ensures var o' := o.(deliveries := o.deliveries[id := d], lastSequence := d.sequence, reconciled := reconciled);
            Agrees(cfg, o', due[KeyOf(d) := id], count + 1, used + cfg.size(d))
  {
    AddedKeeps(o, id, d, reconciled);
    hide Inv, Exact, Total, KeyOf;
    AddTotals(cfg.size, o.deliveries, id, d);
    ExactWith(o.deliveries, due, id, d);
  }

  lemma Rewritten(cfg: Config, o: Outbox, due: Index, count: int, used: int, id: Key, d: Delivery)
    requires Agrees(cfg, o, due, count, used) && id in o.deliveries
    requires SameDelivery(o.deliveries[id], d) && !d.state.Quarantined?
    ensures var o' := o.(deliveries := o.deliveries[id := d]);
            var without := due - {KeyOf(o.deliveries[id])};
            var newUsed := used - cfg.size(o.deliveries[id]) + cfg.size(d);
            && newUsed == Used(cfg, o')
            && (newUsed <= cfg.maxBytes ==> Agrees(cfg, o', if d.state.Pending? then without[KeyOf(d) := id] else without, count, newUsed))
  {
    RewriteKeeps(cfg, o, id, d);
    assert d.event.deliveryId == id;
    hide Inv, Exact, Total, KeyOf;
    TotalWithout(cfg.size, o.deliveries, id);
    TotalWith(cfg.size, o.deliveries, id, d);
    ExactRewritten(o.deliveries, due, id, d);
  }

  lemma DeletedWaiting(cfg: Config, o: Outbox, due: Index, count: int, used: int, id: Key)
    requires Agrees(cfg, o, due, count, used) && id in o.deliveries
    ensures Agrees(cfg, o.(deliveries := o.deliveries - {id}), due - {KeyOf(o.deliveries[id])}, count - 1, used - cfg.size(o.deliveries[id]))
  {
    DeleteKeeps(o, id);
    hide Inv, Exact, Total, KeyOf;
    RemoveTotals(cfg.size, o.deliveries, id);
    ExactWithout(o.deliveries, due, id);
  }

  lemma DeletedAside(cfg: Config, o: Outbox, due: Index, count: int, used: int, id: Key)
    requires Agrees(cfg, o, due, count, used) && id in o.quarantine
    ensures id !in o.deliveries
    ensures Agrees(cfg, o.(quarantine := o.quarantine - {id}), due, count - 1, used - cfg.size(o.quarantine[id]))
  {
    DeleteKeeps(o, id);
    assert id !in o.deliveries;
    hide Inv, Exact, Total, KeyOf;
    RemoveTotals(cfg.size, o.quarantine, id);
  }

  // Moves

  lemma OneMoreMoved(o: Outbox, keys: seq<Key>, cause: Cause, now: Timestamp, id: Key)
    requires id in o.deliveries && id !in keys && id !in o.quarantine
    ensures var a := Moved(o, keys, cause, now);
            var b := Moved(o, keys + [id], cause, now);
            && id in a.deliveries && a.deliveries[id] == o.deliveries[id] && id !in a.quarantine
            && b == a.(deliveries := a.deliveries - {id}, quarantine := a.quarantine[id := Stamp(cause, o.deliveries[id], now)])
  {
    hide Stamp;
    var a := Moved(o, keys, cause, now);
    var b := Moved(o, keys + [id], cause, now);
    assert Range(keys + [id]) == Range(keys) + {id};
    hide Range;
    assert b.deliveries == a.deliveries - {id};
    assert b.quarantine == a.quarantine[id := Stamp(cause, o.deliveries[id], now)];
  }

  lemma MovedAcross(cfg: Config, a: Outbox, b: Outbox, due: Index, count: int, used: int, id: Key, d: Delivery)
    requires Agrees(cfg, a, due, count, used) && Inv(b) && id in a.deliveries && id !in a.quarantine
    requires b == a.(deliveries := a.deliveries - {id}, quarantine := a.quarantine[id := d])
    ensures var newUsed := used - cfg.size(a.deliveries[id]) + cfg.size(d);
            newUsed == Used(cfg, b) && Agrees(cfg, b, due - {KeyOf(a.deliveries[id])}, count, newUsed)
  {
    hide Inv, Exact, Total, KeyOf;
    RemoveTotals(cfg.size, a.deliveries, id);
    AddTotals(cfg.size, a.quarantine, id, d);
    ExactWithout(a.deliveries, due, id);
  }

  ghost predicate Within(keys: seq<Key>, o: Outbox) {
    forall k | k in keys :: k in o.deliveries
  }

  lemma PrefixWithin(keys: seq<Key>, o: Outbox, i: nat)
    requires Within(keys, o) && i < |keys|
    ensures Within(keys[..i], o) && keys[i] in o.deliveries && keys[..i + 1] == keys[..i] + [keys[i]]
  {
  }

  lemma MoveIsSafe(o: Outbox, before: seq<Key>, id: Key, cause: Cause, now: Timestamp)
    requires Inv(o) && id in o.deliveries && Within(before, o)
    ensures id !in o.quarantine && Inv(Moved(o, before + [id], cause, now))
  {
    MovedKeeps(o, before + [id], cause, now);
  }

  /** One round of the moving loop. */
  lemma MovedOne(cfg: Config, o: Outbox, before: seq<Key>, id: Key, cause: Cause, now: Timestamp, due: Index, count: int, used: int)
    requires Inv(o) && id !in before && id in o.deliveries && Within(before, o)
    requires Agrees(cfg, Moved(o, before, cause, now), due, count, used)
    ensures var a := Moved(o, before, cause, now);
            var b := Moved(o, before + [id], cause, now);
            var d := o.deliveries[id];
            var newUsed := used - cfg.size(d) + cfg.size(Stamp(cause, d, now));
            && b == a.(deliveries := a.deliveries - {id}, quarantine := a.quarantine[id := Stamp(cause, d, now)])
            && newUsed == Used(cfg, b)
            && Agrees(cfg, b, due - {KeyOf(d)}, count, newUsed)
  {
    hide *;
    MoveIsSafe(o, before, id, cause, now);
    OneMoreMoved(o, before, cause, now, id);
    MovedAcross(cfg, Moved(o, before, cause, now), Moved(o, before + [id], cause, now), due, count, used, id, Stamp(cause, o.deliveries[id], now));
  }

  lemma NothingMoved(o: Outbox, cause: Cause, now: Timestamp)
    ensures Moved(o, [], cause, now) == o
  {
    assert o.deliveries - Range([]) == o.deliveries;
  }

  ghost predicate PrefixesFit(cfg: Config, o: Outbox, keys: seq<Key>, cause: Cause, now: Timestamp, i: nat)
    requires i <= |keys|
  {
    forall n | 0 < n <= i :: Used(cfg, Moved(o, keys[..n], cause, now)) <= cfg.maxBytes
  }

  lemma PrefixFitting(cfg: Config, o: Outbox, keys: seq<Key>, cause: Cause, now: Timestamp, i: nat)
    requires i < |keys| && PrefixesFit(cfg, o, keys, cause, now, i)
    ensures if Used(cfg, Moved(o, keys[..i + 1], cause, now)) <= cfg.maxBytes
            then PrefixesFit(cfg, o, keys, cause, now, i + 1)
            else !MoveFits(cfg, o, keys, cause, now)
  {
    hide Used, Moved;
  }

  lemma AllPrefixes(cfg: Config, o: Outbox, keys: seq<Key>, cause: Cause, now: Timestamp)
    ensures PrefixesFit(cfg, o, keys, cause, now, 0)
    ensures PrefixesFit(cfg, o, keys, cause, now, |keys|) <==> MoveFits(cfg, o, keys, cause, now)
  {
    hide Used, Moved;
  }

  // Collected keys

  ghost predicate Distinct(keys: seq<Key>) {
    forall i, j | 0 <= i < j < |keys| :: keys[i] != keys[j]
  }

  lemma DistinctAt(keys: seq<Key>, i: nat)
    requires Distinct(keys) && i < |keys|
    ensures keys[i] !in keys[..i]
  {
  }

  lemma DistinctMore(keys: seq<Key>, k: Key)
    requires Distinct(keys) && k !in keys
    ensures Distinct(keys + [k])
  {
    forall i, j | 0 <= i < j < |keys| + 1 ensures (keys + [k])[i] != (keys + [k])[j] {
      if j == |keys| {
        assert keys[i] in keys;
      }
    }
  }

  lemma {:induction false} SelectedAreDistinct(keys: seq<Key>, m: Bucket, f: Filter)
    requires Distinct(keys)
    ensures Distinct(Select(keys, m, f))
  {
    if keys != [] {
      var n := |keys| - 1;
      SelectedAreDistinct(keys[..n], m, f);
      if keys[n] in m && Wants(f, m[keys[n]]) {
        DistinctAt(keys, n);
        SelectMembers(keys[..n], m, f);
        DistinctMore(Select(keys[..n], m, f), keys[n]);
      }
    }
  }

  lemma AscendingAreDistinct(keys: set<Key>)
    ensures Distinct(Ascending(keys))
  {
    AscendingIsSorted(keys);
    var r := Ascending(keys);
    forall i, j | 0 <= i < j < |r| ensures r[i] != r[j] {
      BeforeIsStrict(r[i], r[j]);
    }
  }

  // Pruning and resetting, record by record

  /** The outbox while a pruning cursor still has the given keys ahead of it. */
  function PrunedExcept(cfg: Config, o: Outbox, now: Timestamp, ahead: set<Key>): Outbox {
    o.(quarantine := map k | k in o.quarantine && (k in ahead || !Expired(cfg, o.quarantine[k], now)) :: o.quarantine[k])
  }

  lemma PruneStarts(cfg: Config, o: Outbox, now: Timestamp)
    ensures PrunedExcept(cfg, o, now, o.quarantine.Keys) == o
    ensures PrunedExcept(cfg, o, now, {}) == Pruned(cfg, o, now)
  {
    assert PrunedExcept(cfg, o, now, o.quarantine.Keys).quarantine == o.quarantine;
    assert PrunedExcept(cfg, o, now, {}).quarantine == Pruned(cfg, o, now).quarantine;
  }

  lemma PrunedOne(cfg: Config, o: Outbox, now: Timestamp, ahead: set<Key>, key: Key, due: Index, count: int, used: int)
    requires key in ahead && key in o.quarantine
    requires Agrees(cfg, PrunedExcept(cfg, o, now, ahead), due, count, used)
    ensures var a := PrunedExcept(cfg, o, now, ahead);
            var b := PrunedExcept(cfg, o, now, ahead - {key});
            if Expired(cfg, o.quarantine[key], now)
            then b == a.(quarantine := a.quarantine - {key}) && Agrees(cfg, b, due, count - 1, used - cfg.size(o.quarantine[key]))
            else b == a && Agrees(cfg, b, due, count, used)
  {
    hide Inv, Exact, Total, KeyOf, Agrees, Expired;
    var a := PrunedExcept(cfg, o, now, ahead);
    var b := PrunedExcept(cfg, o, now, ahead - {key});
    if Expired(cfg, o.quarantine[key], now) {
      assert b.quarantine == a.quarantine - {key};
      DeletedAside(cfg, a, due, count, used, key);
    } else {
      assert b.quarantine == a.quarantine;
    }
  }

  /** The records a reset has visited so far, in their new form. */
  function ResetAmong(m: Bucket, now: Timestamp, visited: set<Key>): Bucket {
    map k | k in m && k in visited :: Reset(m[k], now)
  }

  lemma NothingReset(m: Bucket, now: Timestamp)
    ensures ResetAmong(m, now, {}) == map[] && Exact(map[], map[])
  {
  }

  lemma ResetOne(o: Outbox, now: Timestamp, visited: set<Key>, key: Key, due: Index)
    requires Inv(o) && key in o.deliveries && key !in visited
    requires Exact(ResetAmong(o.deliveries, now, visited), due)
    ensures !o.deliveries[key].state.Quarantined?
    ensures var d := Reset(o.deliveries[key], now);
            && ResetAmong(o.deliveries, now, visited + {key}) == ResetAmong(o.deliveries, now, visited)[key := d]
            && Exact(ResetAmong(o.deliveries, now, visited + {key}), due[KeyOf(d) := key])
  {
    assert o.deliveries[key].event.deliveryId == key && !o.deliveries[key].state.Quarantined?;
    hide Inv, Exact, KeyOf;
    var d := Reset(o.deliveries[key], now);
    assert ResetAmong(o.deliveries, now, visited + {key}) == ResetAmong(o.deliveries, now, visited)[key := d];
    ExactWith(ResetAmong(o.deliveries, now, visited), due, key, d);
  }

  lemma ResetEnds(cfg: Config, o: Outbox, now: Timestamp, due: Index)
    requires Inv(o) && Exact(ResetAmong(o.deliveries, now, o.deliveries.Keys), due)
    ensures var o' := ResetInflight(o, now);
            o'.deliveries == ResetAmong(o.deliveries, now, o.deliveries.Keys) && Agrees(cfg, o', due, Count(o'), Used(cfg, o'))
  {
    ResetKeeps(o, now);
    assert ResetInflight(o, now).deliveries == ResetAmong(o.deliveries, now, o.deliveries.Keys);
  }
}

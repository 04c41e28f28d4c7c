/** The due index kept exact: one key per pending record and no other key. */
module DueIndex {
  import opened Common
  import opened BucketOrder
  import opened OutboxTypes
  import opened Outbox
  import opened OutboxInvariant

  function KeyOf(d: Delivery): Key {
    DueKey(d.nextAttemptAt, d.sequence, d.event.deliveryId)
  }

  predicate Indexed(m: Bucket, due: map<Key, Key>, id: Key)
    requires id in m
  {
    m[id].state.Pending? ==> KeyOf(m[id]) in due && due[KeyOf(m[id])] == id
  }

  predicate Justified(m: Bucket, due: map<Key, Key>, key: Key)
    requires key in due
  {
    due[key] in m && m[due[key]].state.Pending? && KeyOf(m[due[key]]) == key
  }

  ghost predicate Exact(m: Bucket, due: map<Key, Key>) {
    && (forall id | id in m :: m[id].event.deliveryId == id)
    && (forall id | id in m :: Indexed(m, due, id))
    && (forall key | key in due :: Justified(m, due, key))
  }

  lemma KeysApart(a: Delivery, b: Delivery)
    requires KeyOf(a) == KeyOf(b)
    ensures a.event.deliveryId == b.event.deliveryId
  {
    DueKeyNamesDelivery(a.nextAttemptAt, a.sequence, a.event.deliveryId, b.nextAttemptAt, b.sequence, b.event.deliveryId);
  }

  /** Taking a record's key out leaves an exact index for the other records. */
  lemma ExactWithout(m: Bucket, due: map<Key, Key>, id: Key)
    requires Exact(m, due) && id in m
    ensures Exact(m - {id}, due - {KeyOf(m[id])})
  {
    var due' := due - {KeyOf(m[id])};
    forall j | j in m - {id} ensures Indexed(m - {id}, due', j) {
      assert Indexed(m, due, j);
      if KeyOf(m[j]) == KeyOf(m[id]) {
        KeysApart(m[j], m[id]);
      }
    }
    forall key | key in due' ensures Justified(m - {id}, due', key) {
      assert Justified(m, due, key);
    }
  }

  /** Putting a pending record in with its key keeps the index exact. */
  lemma ExactWith(m: Bucket, due: map<Key, Key>, id: Key, d: Delivery)
    requires Exact(m, due) && id !in m && d.event.deliveryId == id
    ensures Exact(m[id := d], if d.state.Pending? then due[KeyOf(d) := id] else due)
  {
    var m' := m[id := d];
    var due' := if d.state.Pending? then due[KeyOf(d) := id] else due;
    forall j | j in m' ensures Indexed(m', due', j) {
      if j != id {
        assert Indexed(m, due, j);
        if KeyOf(m[j]) == KeyOf(d) {
          KeysApart(m[j], d);
        }
      }
    }
    forall key | key in due' ensures Justified(m', due', key) {
      if key in due {
        assert Justified(m, due, key);
        if key == KeyOf(d) {
          KeysApart(m[due[key]], d);
        }
      }
    }
  }

  lemma ExactRewritten(m: Bucket, due: map<Key, Key>, id: Key, d: Delivery)
    requires Exact(m, due) && id in m && d.event.deliveryId == id
    ensures var without := due - {KeyOf(m[id])};
            Exact(m[id := d], if d.state.Pending? then without[KeyOf(d) := id] else without)
  {
    ExactWithout(m, due, id);
    ExactWith(m - {id}, due - {KeyOf(m[id])}, id, d);
    assert (m - {id})[id := d] == m[id := d];
  }

  /** The earliest pending record, ties broken by sequence. */
  ghost predicate Earliest(m: Bucket, d: Delivery) {
    && d in m.Values && d.state.Pending?
    && forall id | id in m && m[id].state.Pending? && m[id] != d ::
         d.nextAttemptAt < m[id].nextAttemptAt || (d.nextAttemptAt == m[id].nextAttemptAt && d.sequence < m[id].sequence)
  }

  /** What a caller of NextDue may rely on: a scan over every pending record. */
  ghost predicate NextDueAnswer(m: Bucket, now: Timestamp, r: Option<Delivery>) {
    match r
    case None => forall id | id in m && m[id].state.Pending? :: now < m[id].nextAttemptAt
    case Some(d) => Earliest(m, d) && d.nextAttemptAt <= now
  }

  /** The first key of the byte-ordered index names the earliest pending record. */
  lemma FirstKeyIsEarliest(o: Outbox, due: map<Key, Key>)
    requires Inv(o) && Exact(o.deliveries, due) && due != map[] && o.lastSequence < SEQUENCE_LIMIT
    ensures var id := due[First(due.Keys)];
            id in o.deliveries && Earliest(o.deliveries, o.deliveries[id]) && DueTimestamp(First(due.Keys)) == o.deliveries[id].nextAttemptAt
  {
    var key := First(due.Keys);
    var id := due[key];
    assert Justified(o.deliveries, due, key);
    var d := o.deliveries[id];
    DueTimestampOfKey(d.nextAttemptAt, d.sequence, d.event.deliveryId);
    forall j | j in o.deliveries && o.deliveries[j].state.Pending? && o.deliveries[j] != d
      ensures d.nextAttemptAt < o.deliveries[j].nextAttemptAt
           || (d.nextAttemptAt == o.deliveries[j].nextAttemptAt && d.sequence < o.deliveries[j].sequence)
    {
      var e := o.deliveries[j];
      assert Indexed(o.deliveries, due, j);
      assert Has(o, id) && Has(o, j) && At(o, id).sequence != At(o, j).sequence;
      DueKeyOrder(d.nextAttemptAt, d.sequence, d.event.deliveryId, e.nextAttemptAt, e.sequence, e.event.deliveryId);
    }
  }

  lemma EmptyIndex(m: Bucket, due: map<Key, Key>)
    requires Exact(m, due) && due == map[]
    ensures forall id | id in m :: !m[id].state.Pending?
  {
    forall id | id in m ensures !m[id].state.Pending? {
      assert Indexed(m, due, id);
    }
  }

  lemma EarliestIsUnique(m: Bucket, a: Delivery, b: Delivery)
    requires Earliest(m, a) && Earliest(m, b)
    ensures a == b
  {
    var i :| i in m && m[i] == a;
    var j :| j in m && m[j] == b;
  }

  /** The record a scan would pick, if any is due. */
  ghost function NextDue(o: Outbox, now: Timestamp): (r: Option<Delivery>) {
    if exists d :: Earliest(o.deliveries, d) && d.nextAttemptAt <= now then
      var d :| Earliest(o.deliveries, d) && d.nextAttemptAt <= now;
      Some(d)
    else None
  }

  lemma AnswerIsNextDue(o: Outbox, now: Timestamp, r: Option<Delivery>)
    requires NextDueAnswer(o.deliveries, now, r)
    ensures r == NextDue(o, now)
  {
    if r.Some? {
      var d := NextDue(o, now).value;
      EarliestIsUnique(o.deliveries, r.value, d);
    } else {
      forall d | Earliest(o.deliveries, d) ensures d.nextAttemptAt > now {
        var i :| i in o.deliveries && o.deliveries[i] == d;
      }
    }
  }
}

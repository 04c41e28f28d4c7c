/**
 The outbox as its callers see it: two buckets of records and the metadata beside them.
 Count, used bytes and due index are derived here; OutboxStore maintains them incrementally.
 */
module Outbox {
  import opened Common
  import opened BucketOrder
  import opened OutboxTypes

  type Bucket = map<Key, Delivery>

  datatype Outbox = Outbox(
    deliveries: Bucket,
    quarantine: Bucket,
    lastSequence: nat,
    pause: Option<DispatchPause>,
    rotation: Option<InstallationRotation>,
    reconciled: Option<Principal>)

  const EMPTY := Outbox(map[], map[], 0, None, None, None)

  // Sizes

  ghost function Total(size: Delivery -> nat, m: Bucket): nat
    decreases |m|
  {
    if m == map[] then 0 else
      var k :| k in m;
      size(m[k]) + Total(size, m - {k})
  }

  lemma {:induction false} TotalWithout(size: Delivery -> nat, m: Bucket, k: Key)
    requires k in m
    ensures Total(size, m) == size(m[k]) + Total(size, m - {k})
    decreases |m|
  {
    var j :| j in m && Total(size, m) == size(m[j]) + Total(size, m - {j});
    if j != k {
      TotalWithout(size, m - {j}, k);
      TotalWithout(size, m - {k}, j);
      assert m - {j} - {k} == m - {k} - {j};
    }
  }

  lemma TotalWith(size: Delivery -> nat, m: Bucket, k: Key, d: Delivery)
    ensures Total(size, m[k := d]) == size(d) + Total(size, m - {k})
  {
    TotalWithout(size, m[k := d], k);
    assert m[k := d] - {k} == m - {k};
  }

  ghost function Used(cfg: Config, o: Outbox): nat {
    Total(cfg.size, o.deliveries) + Total(cfg.size, o.quarantine)
  }

  function Count(o: Outbox): nat {
    |o.deliveries| + |o.quarantine|
  }

  ghost predicate Bounded(cfg: Config, o: Outbox) {
    Count(o) <= cfg.maxEvents && Used(cfg, o) <= cfg.maxBytes
  }

  // Transactions. A failed transaction leaves the outbox as it was.

  function Accepted(input: Delivery, enqueuedAt: Option<Timestamp>, nextAttemptAt: Option<Timestamp>, sequence: nat, now: Timestamp): Delivery {
    var at := if enqueuedAt.Some? then enqueuedAt.value else now;
    input.(state := Pending,
           sequence := sequence,
           enqueuedAt := at,
           nextAttemptAt := if nextAttemptAt.Some? then nextAttemptAt.value else at)
  }

  ghost function TryEnqueue(cfg: Config, o: Outbox, input: Delivery, enqueuedAt: Option<Timestamp>, nextAttemptAt: Option<Timestamp>, now: Timestamp): (Outbox, Reply) {
    var id := input.event.deliveryId;
    var record := Accepted(input, enqueuedAt, nextAttemptAt, o.lastSequence + 1, now);
    if id in o.deliveries || id in o.quarantine then (o, Failed(DeliveryExists))
    else if Count(o) + 1 > cfg.maxEvents || Used(cfg, o) + cfg.size(record) > cfg.maxBytes then (o, Failed(OutboxFull))
    else (o.(deliveries := o.deliveries[id := record],
             lastSequence := o.lastSequence + 1,
             reconciled := if o.reconciled == Some(SenderOf(input)) then o.reconciled else None),
          Done)
  }

  predicate Expired(cfg: Config, d: Delivery, now: Timestamp) {
    d.quarantinedAt.Some? && d.quarantinedAt.value + cfg.retention <= now
  }

  function Pruned(cfg: Config, o: Outbox, now: Timestamp): Outbox {
    o.(quarantine := map k | k in o.quarantine && !Expired(cfg, o.quarantine[k], now) :: o.quarantine[k])
  }

  /** One attempt, and a second one after pruning when the first found no room. */
  ghost function Enqueue(cfg: Config, o: Outbox, input: Delivery, enqueuedAt: Option<Timestamp>, nextAttemptAt: Option<Timestamp>, now: Timestamp): (Outbox, Reply) {
    if input.event.deliveryId == [] || input.event.envelope == [] then (o, Failed(InvalidInput)) else
      var first := TryEnqueue(cfg, o, input, enqueuedAt, nextAttemptAt, now);
      if first.1 != Failed(OutboxFull) then first
      else TryEnqueue(cfg, Pruned(cfg, o, now), input, enqueuedAt, nextAttemptAt, now)
  }

  /** Rewrites a record in place when the new encoding fits. */
  ghost function Rewrite(cfg: Config, o: Outbox, id: Key, record: Delivery): (Outbox, Reply)
    requires id in o.deliveries
  {
    var o' := o.(deliveries := o.deliveries[id := record]);
    if Used(cfg, o') > cfg.maxBytes then (o, Failed(OutboxFull)) else (o', Done)
  }

  ghost function MarkInflight(cfg: Config, o: Outbox, id: Key): (Outbox, Reply) {
    if id !in o.deliveries then (o, Failed(DeliveryNotFound))
    else if !o.deliveries[id].state.Pending? then (o, Failed(NotPending))
    else Rewrite(cfg, o, id, o.deliveries[id].(state := Inflight))
  }

  ghost function Retry(cfg: Config, o: Outbox, id: Key, next: Timestamp, failure: AttemptFailure): (Outbox, Reply) {
    if id !in o.deliveries then (o, Failed(DeliveryNotFound)) else
      var d := o.deliveries[id];
      Rewrite(cfg, o, id, d.(state := Pending, attempts := d.attempts + 1, nextAttemptAt := next, last := failure))
  }

  ghost function PauseDelivery(cfg: Config, o: Outbox, id: Key, pause: DispatchPause, failure: AttemptFailure, now: Timestamp): (Outbox, Reply) {
    if pause.kind == Other("") then (o, Failed(PauseKindRequired))
    else if id !in o.deliveries then (o, Failed(DeliveryNotFound))
    else
      var d := o.deliveries[id];
      var r := Rewrite(cfg, o, id, d.(state := Pending, attempts := d.attempts + 1, last := failure));
      if r.1.Failed? then r else
        (r.0.(pause := Some(pause.(deliveryId := id, pausedAt := Some(if pause.pausedAt.Some? then pause.pausedAt.value else now)))), Done)
  }

  predicate Resolves(pause: DispatchPause, binding: Binding) {
    match pause.kind
    case Credential => binding.credentialGeneration > pause.credentialGeneration || binding.bindingGeneration > pause.bindingGeneration
    case BindingRejected => binding.bindingGeneration > pause.bindingGeneration
    case _ => false
  }

  function ClearResolvedPause(o: Outbox, binding: Binding): (Outbox, Reply) {
    if o.pause.None? then (o, Done)
    else if o.pause.value.kind.Other? then (o, Failed(UnknownPauseKind))
    else if Resolves(o.pause.value, binding) then (o.(pause := None), Done)
    else (o, Done)
  }

  // Quarantine

  /** Why a record is set aside. */
  datatype Cause =
    | ByOperator
    | ByFailure(reason: Note, failure: AttemptFailure)
    | ByReceiver(reason: Note, failure: AttemptFailure)
    | ByBinding(binding: Binding)
    | ByRotation

  function Reason(cause: Cause, d: Delivery): Note {
    match cause
    case ByOperator => CollisionResolved
    case ByFailure(reason, _) => reason
    case ByReceiver(reason, _) => reason
    case ByBinding(b) => if d.event.installationId != b.installationId then InstallationReset else CredentialRebindRequired
    case ByRotation => InstallationRotated
  }

  function Diagnosis(cause: Cause, d: Delivery): AttemptFailure {
    match cause
    case ByOperator => d.last
    case ByFailure(_, failure) => failure
    case ByReceiver(_, failure) => failure.(requestId := d.last.requestId)
    case ByBinding(_) => d.last.(errorCode := BindingChanged, message := BindingChanged)
    case ByRotation => d.last.(errorCode := InstallationRotated, message := InstallationRotated)
  }

  function Stamp(cause: Cause, d: Delivery, now: Timestamp): Delivery {
    d.(state := Quarantined, quarantinedAt := Some(now), quarantineReason := Reason(cause, d), last := Diagnosis(cause, d))
  }

  /** Which waiting records an operation is about. */
  datatype Filter = FromReceiver(agent: string) | FromInstallation(id: string) | NotFrom(principal: Principal)

  predicate Wants(f: Filter, d: Delivery) {
    match f
    case FromReceiver(agent) => d.event.receiverAgentId == agent
    case FromInstallation(id) => d.event.installationId == id
    case NotFrom(p) => SenderOf(d) != p
  }

  function Range(keys: seq<Key>): set<Key> {
    set k | k in keys
  }

  /** The outbox after the records under the given keys have changed bucket. */
  function Moved(o: Outbox, keys: seq<Key>, cause: Cause, now: Timestamp): Outbox {
    o.(deliveries := o.deliveries - Range(keys),
       quarantine := o.quarantine + map k | k in Range(keys) && k in o.deliveries :: Stamp(cause, o.deliveries[k], now))
  }

  /** No prefix of the move may exceed the byte bound, because the transaction checks after each record. */
  ghost predicate MoveFits(cfg: Config, o: Outbox, keys: seq<Key>, cause: Cause, now: Timestamp) {
    forall n | 0 < n <= |keys| :: Used(cfg, Moved(o, keys[..n], cause, now)) <= cfg.maxBytes
  }

  ghost function Move(cfg: Config, o: Outbox, keys: seq<Key>, cause: Cause, now: Timestamp): (Outbox, Reply) {
    if MoveFits(cfg, o, keys, cause, now) then (Moved(o, keys, cause, now), Done) else (o, Failed(OutboxFull))
  }

  /** The matching keys of a bucket in the order they were given. */
  function Select(keys: seq<Key>, m: Bucket, f: Filter): seq<Key> {
    if keys == [] then []
    else Select(keys[..|keys| - 1], m, f) + (var k := keys[|keys| - 1]; if k in m && Wants(f, m[k]) then [k] else [])
  }

  lemma {:induction false} SelectMembers(keys: seq<Key>, m: Bucket, f: Filter)
    ensures forall k :: k in Select(keys, m, f) <==> k in keys && k in m && Wants(f, m[k])
  {
    if keys != [] {
      SelectMembers(keys[..|keys| - 1], m, f);
      assert keys == keys[..|keys| - 1] + [keys[|keys| - 1]];
    }
  }

  function Matches(o: Outbox, f: Filter): (r: seq<Key>)
    ensures forall k :: k in r <==> k in o.deliveries && Wants(f, o.deliveries[k])
  {
    SelectMembers(Ascending(o.deliveries.Keys), o.deliveries, f);
    Select(Ascending(o.deliveries.Keys), o.deliveries, f)
  }

  ghost function ResolveCollision(cfg: Config, o: Outbox, id: Key, now: Timestamp): (Outbox, Reply) {
    if o.pause.None? || o.pause.value.kind != Collision || o.pause.value.deliveryId != id then (o, Failed(PauseMismatch))
    else if id !in o.deliveries then (o, Failed(DeliveryNotFound))
    else
      var r := Move(cfg, o, [id], ByOperator, now);
      if r.1.Failed? then r else (r.0.(pause := None), Done)
  }

  ghost function Quarantine(cfg: Config, o: Outbox, id: Key, reason: Note, failure: AttemptFailure, now: Timestamp): (Outbox, Reply) {
    if id !in o.deliveries then (o, Failed(DeliveryNotFound))
    else Move(cfg, o, [id], ByFailure(reason, failure), now)
  }

  ghost function QuarantineByReceiver(cfg: Config, o: Outbox, agent: string, reason: Note, failure: AttemptFailure, now: Timestamp): (Outbox, Reply) {
    if agent == "" then (o, Failed(InvalidInput))
    else Move(cfg, o, Matches(o, FromReceiver(agent)), ByReceiver(reason, failure), now)
  }

  predicate Complete(b: Binding) {
    b.ownerId != "" && b.receiverAgentId != "" && b.installationId != ""
  }

  /** The full scan, whatever the cache says. */
  ghost function FullReconcile(cfg: Config, o: Outbox, b: Binding, now: Timestamp): (Outbox, Reply) {
    var r := Move(cfg, o, Matches(o, NotFrom(PrincipalOf(b))), ByBinding(b), now);
    if r.1.Failed? then r else (r.0.(reconciled := Some(PrincipalOf(b))), Done)
  }

  /** A reconciled scan leaves only records of the binding waiting. */
  lemma FullReconcileAgrees(o: Outbox, b: Binding, now: Timestamp)
    ensures var o' := Moved(o, Matches(o, NotFrom(PrincipalOf(b))), ByBinding(b), now);
            forall k | k in o'.deliveries :: SenderOf(o'.deliveries[k]) == PrincipalOf(b)
  {
    var keys := Matches(o, NotFrom(PrincipalOf(b)));
    var o' := Moved(o, keys, ByBinding(b), now);
    forall k | k in o'.deliveries ensures SenderOf(o'.deliveries[k]) == PrincipalOf(b) {
      assert k !in keys && k in Ascending(o.deliveries.Keys);
    }
  }

  ghost function Reconcile(cfg: Config, o: Outbox, b: Binding, now: Timestamp): (Outbox, Reply) {
    if !Complete(b) then (o, Failed(IncompleteBinding))
    else if o.reconciled == Some(PrincipalOf(b)) then (o, Done)
    else FullReconcile(cfg, o, b, now)
  }

  // Rotation journal

  function BeginRotation(o: Outbox, oldId: string, newId: string, reason: string, now: Timestamp): (Outbox, Reply) {
    if oldId == "" || newId == "" || oldId == newId then (o, Failed(IdsNotDistinct))
    else if o.rotation.Some? && o.rotation.value.phase != Completed then (o, Done)
    else (o.(rotation := Some(InstallationRotation(oldId, newId, reason, Intent, now, now, 0))), Done)
  }

  ghost function QuarantineRotation(cfg: Config, o: Outbox, now: Timestamp): (Outbox, Reply) {
    if o.rotation.None? then (o, Failed(JournalMissing))
    else if o.rotation.value.phase != Intent then (o, Done)
    else
      var journal := o.rotation.value;
      var keys := Matches(o, FromInstallation(journal.oldInstallationId));
      var r := Move(cfg, o, keys, ByRotation, now);
      if r.1.Failed? then r else
        (r.0.(rotation := Some(journal.(phase := OldBindingQuarantined, quarantined := |keys|, updatedAt := now)),
              pause := if o.pause.Some? && o.pause.value.deliveryId in keys then None else o.pause),
         Done)
  }

  function AdvanceRotation(o: Outbox, expected: Phase, next: Phase, now: Timestamp): (Outbox, Reply) {
    if o.rotation.None? then (o, Failed(JournalMissing))
    else if o.rotation.value.phase == next then (o, Done)
    else if o.rotation.value.phase != expected then (o, Failed(PhaseMismatch))
    else (o.(rotation := Some(o.rotation.value.(phase := next, updatedAt := now))), Done)
  }

  // Removal and reopening

  function Delete(o: Outbox, id: Key): (Outbox, Reply) {
    if id in o.deliveries then (o.(deliveries := o.deliveries - {id}), Done)
    else if id in o.quarantine then (o.(quarantine := o.quarantine - {id}), Done)
    else (o, Failed(DeliveryNotFound))
  }

  function Reset(d: Delivery, now: Timestamp): Delivery {
    if d.state.Inflight? then d.(state := Pending, nextAttemptAt := now) else d
  }

  function ResetInflight(o: Outbox, now: Timestamp): Outbox {
    o.(deliveries := map k | k in o.deliveries :: Reset(o.deliveries[k], now))
  }

  /** What a crash at any point between two transactions turns the outbox into. */
  function Reopen(cfg: Config, o: Outbox, now: Timestamp): Outbox {
    Pruned(cfg, ResetInflight(o, now), now)
  }
}

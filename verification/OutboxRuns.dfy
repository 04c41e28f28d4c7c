/** Runs of outbox transactions, crashes included, and what holds over all of them. */
module OutboxRuns {
  import opened Common
  import opened BucketOrder
  import opened OutboxTypes
  import opened Outbox
  import opened OutboxInvariant

  datatype Op =
    | DoEnqueue(input: Delivery, enqueuedAt: Option<Timestamp>, nextAttemptAt: Option<Timestamp>)
    | DoMarkInflight(id: Key)
    | DoRetry(id: Key, next: Timestamp, failure: AttemptFailure)
    | DoPause(id: Key, pause: DispatchPause, failure: AttemptFailure)
    | DoClearPause(binding: Binding)
    | DoResolveCollision(id: Key)
    | DoQuarantine(id: Key, reason: Note, failure: AttemptFailure)
    | DoQuarantineByReceiver(agent: string, reason: Note, failure: AttemptFailure)
    | DoReconcile(binding: Binding)
    | DoBeginRotation(oldId: string, newId: string, purpose: string)
    | DoQuarantineRotation
    | DoAdvanceRotation(expected: Phase, following: Phase)
    | DoDelete(id: Key)
    | DoPrune
    | Crash

  datatype Step = Step(op: Op, now: Timestamp)

  ghost function Apply(cfg: Config, o: Outbox, step: Step): (Outbox, Reply) {
    var now := step.now;
    match step.op
    case DoEnqueue(input, enqueuedAt, nextAttemptAt) => Enqueue(cfg, o, input, enqueuedAt, nextAttemptAt, now)
    case DoMarkInflight(id) => MarkInflight(cfg, o, id)
    case DoRetry(id, next, failure) => Retry(cfg, o, id, next, failure)
    case DoPause(id, pause, failure) => PauseDelivery(cfg, o, id, pause, failure, now)
    case DoClearPause(binding) => ClearResolvedPause(o, binding)
    case DoResolveCollision(id) => ResolveCollision(cfg, o, id, now)
    case DoQuarantine(id, reason, failure) => Quarantine(cfg, o, id, reason, failure, now)
    case DoQuarantineByReceiver(agent, reason, failure) => QuarantineByReceiver(cfg, o, agent, reason, failure, now)
    case DoReconcile(binding) => Reconcile(cfg, o, binding, now)
    case DoBeginRotation(oldId, newId, purpose) => BeginRotation(o, oldId, newId, purpose, now)
    case DoQuarantineRotation => QuarantineRotation(cfg, o, now)
    case DoAdvanceRotation(expected, following) => AdvanceRotation(o, expected, following, now)
    case DoDelete(id) => Delete(o, id)
    case DoPrune => (Pruned(cfg, o, now), Done)
    case Crash => (Reopen(cfg, o, now), Done)
  }

  ghost function Next(cfg: Config, o: Outbox, step: Step): Outbox {
    Apply(cfg, o, step).0
  }

  ghost function Run(cfg: Config, o: Outbox, steps: seq<Step>): Outbox {
    if steps == [] then o else Next(cfg, Run(cfg, o, steps[..|steps| - 1]), steps[|steps| - 1])
  }

  // One step

  predicate Rewrites(op: Op) {
    op.DoMarkInflight? || op.DoRetry? || op.DoPause?
  }

  predicate Moves(op: Op) {
    op.DoResolveCollision? || op.DoQuarantine? || op.DoQuarantineByReceiver? || op.DoReconcile? || op.DoQuarantineRotation?
  }

  predicate MakesRoom(op: Op) {
    op.DoEnqueue? || op.DoPrune? || op.Crash?
  }

  /** What a step may do to one record it finds. */
  ghost predicate Preserves(cfg: Config, o: Outbox, o': Outbox, step: Step, k: Key)
    requires Has(o, k)
  {
    if Has(o', k) then
      && SameDelivery(At(o, k), At(o', k))
      && (k in o'.deliveries <==> k !in o'.quarantine)
      && (k in o.quarantine ==> k in o'.quarantine && o'.quarantine[k] == o.quarantine[k])
      && (k in o.deliveries && k in o'.quarantine ==> o'.quarantine[k].quarantinedAt == Some(step.now))
    else
      step.op == DoDelete(k) || (MakesRoom(step.op) && k in o.quarantine && Expired(cfg, o.quarantine[k], step.now))
  }

  ghost predicate Sound(cfg: Config, o: Outbox, o': Outbox, step: Step) {
    Inv(o') && forall k | Has(o, k) :: Preserves(cfg, o, o', step, k)
  }

  lemma MoveStep(cfg: Config, o: Outbox, keys: seq<Key>, cause: Cause, step: Step)
    requires Inv(o) && forall k | k in keys :: k in o.deliveries
    ensures Sound(cfg, o, Moved(o, keys, cause, step.now), step)
  {
    MovedKeeps(o, keys, cause, step.now);
    var o' := Moved(o, keys, cause, step.now);
    forall k | Has(o, k) ensures Preserves(cfg, o, o', step, k) {
      assert Has(o', k);
      if k in keys {
        assert o'.quarantine[k] == Stamp(cause, o.deliveries[k], step.now);
      }
    }
  }

  /** Only the fields beside the two buckets differ. */
  lemma SameBucketsSound(cfg: Config, o: Outbox, m: Outbox, o': Outbox, step: Step)
    requires Sound(cfg, o, m, step)
    requires o'.deliveries == m.deliveries && o'.quarantine == m.quarantine && o'.lastSequence == m.lastSequence
    requires CacheAgrees(o')
    ensures Sound(cfg, o, o', step)
  {
    assert forall k :: Has(o', k) == Has(m, k) && (Has(m, k) ==> At(o', k) == At(m, k));
    assert SequencesDistinct(o');
    forall k | Has(o, k) ensures Preserves(cfg, o, o', step, k) {
      assert Preserves(cfg, o, m, step, k);
    }
  }

  lemma Unchanged(cfg: Config, o: Outbox, step: Step)
    requires Inv(o)
    ensures Sound(cfg, o, o, step)
  {
  }

  lemma RewriteStep(cfg: Config, o: Outbox, id: Key, record: Delivery, step: Step)
    requires Inv(o) && id in o.deliveries
    requires SameDelivery(o.deliveries[id], record) && !record.state.Quarantined?
    ensures Sound(cfg, o, Rewrite(cfg, o, id, record).0, step)
  {
    RewriteKeeps(cfg, o, id, record);
  }

  lemma RewritesStep(cfg: Config, o: Outbox, step: Step)
    requires Inv(o) && Rewrites(step.op)
    ensures Sound(cfg, o, Next(cfg, o, step), step)
  {
    hide Sound, Used;
    Unchanged(cfg, o, step);
    var id := step.op.id;
    if id in o.deliveries {
      var d := o.deliveries[id];
      match step.op
      case DoMarkInflight(_) =>
        RewriteStep(cfg, o, id, d.(state := Inflight), step);
      case DoRetry(_, next, failure) =>
        RewriteStep(cfg, o, id, d.(state := Pending, attempts := d.attempts + 1, nextAttemptAt := next, last := failure), step);
      case DoPause(_, pause, failure) =>
        var record := d.(state := Pending, attempts := d.attempts + 1, last := failure);
        RewriteStep(cfg, o, id, record, step);
        if Next(cfg, o, step) != o {
          SameBucketsSound(cfg, o, Rewrite(cfg, o, id, record).0, Next(cfg, o, step), step);
        }
    }
  }

  lemma ResolveStep(cfg: Config, o: Outbox, id: Key, step: Step)
    requires Inv(o)
    ensures Sound(cfg, o, ResolveCollision(cfg, o, id, step.now).0, step)
  {
    Unchanged(cfg, o, step);
    if id in o.deliveries {
      MoveStep(cfg, o, [id], ByOperator, step);
      SameBucketsSound(cfg, o, Moved(o, [id], ByOperator, step.now), Moved(o, [id], ByOperator, step.now).(pause := None), step);
    }
  }

  lemma ReconcileStep(cfg: Config, o: Outbox, b: Binding, step: Step)
    requires Inv(o)
    ensures Sound(cfg, o, Reconcile(cfg, o, b, step.now).0, step)
  {
    Unchanged(cfg, o, step);
    var m := Moved(o, Matches(o, NotFrom(PrincipalOf(b))), ByBinding(b), step.now);
    MoveStep(cfg, o, Matches(o, NotFrom(PrincipalOf(b))), ByBinding(b), step);
    FullReconcileAgrees(o, b, step.now);
    SameBucketsSound(cfg, o, m, m.(reconciled := Some(PrincipalOf(b))), step);
  }

  lemma QuarantineRotationStep(cfg: Config, o: Outbox, step: Step)
    requires Inv(o)
    ensures Sound(cfg, o, QuarantineRotation(cfg, o, step.now).0, step)
  {
    Unchanged(cfg, o, step);
    var o' := QuarantineRotation(cfg, o, step.now).0;
    if o' != o {
      var keys := Matches(o, FromInstallation(o.rotation.value.oldInstallationId));
      var m := Moved(o, keys, ByRotation, step.now);
      MoveStep(cfg, o, keys, ByRotation, step);
      SameBucketsSound(cfg, o, m, m.(rotation := o'.rotation, pause := o'.pause), step);
    }
  }

  lemma MovesStep(cfg: Config, o: Outbox, step: Step)
    requires Inv(o) && Moves(step.op)
    ensures Sound(cfg, o, Next(cfg, o, step), step)
  {
    hide Inv, Sound, Used, MoveFits, Matches, Moved;
    Unchanged(cfg, o, step);
    match step.op
    case DoResolveCollision(id) =>
      ResolveStep(cfg, o, id, step);
    case DoQuarantine(id, reason, failure) =>
      if id in o.deliveries {
        MoveStep(cfg, o, [id], ByFailure(reason, failure), step);
      }
    case DoQuarantineByReceiver(agent, reason, failure) =>
      MoveStep(cfg, o, Matches(o, FromReceiver(agent)), ByReceiver(reason, failure), step);
    case DoReconcile(b) =>
      ReconcileStep(cfg, o, b, step);
    case DoQuarantineRotation =>
      QuarantineRotationStep(cfg, o, step);
  }

  lemma PruneStep(cfg: Config, o: Outbox, step: Step)
    requires Inv(o) && MakesRoom(step.op)
    ensures Sound(cfg, o, Pruned(cfg, o, step.now), step)
  {
    PrunedKeeps(cfg, o, step.now);
  }

  lemma TryEnqueueStep(cfg: Config, o: Outbox, input: Delivery, enqueuedAt: Option<Timestamp>, nextAttemptAt: Option<Timestamp>, step: Step)
    requires Inv(o)
    ensures Sound(cfg, o, TryEnqueue(cfg, o, input, enqueuedAt, nextAttemptAt, step.now).0, step)
  {
    TryEnqueueKeeps(cfg, o, input, enqueuedAt, nextAttemptAt, step.now);
  }

  lemma ThroughPruning(cfg: Config, o: Outbox, o': Outbox, step: Step)
    requires Inv(o) && step.op.DoEnqueue?
    requires Sound(cfg, o, Pruned(cfg, o, step.now), step)
    requires Sound(cfg, Pruned(cfg, o, step.now), o', step)
    requires forall k | Has(o', k) && Has(o, k) :: Has(Pruned(cfg, o, step.now), k)
    ensures Sound(cfg, o, o', step)
  {
    var p := Pruned(cfg, o, step.now);
    forall k | Has(o, k) ensures Preserves(cfg, o, o', step, k) {
      assert Preserves(cfg, o, p, step, k);
      if Has(p, k) {
        assert Preserves(cfg, p, o', step, k);
      }
    }
  }

  lemma EnqueueStep(cfg: Config, o: Outbox, input: Delivery, enqueuedAt: Option<Timestamp>, nextAttemptAt: Option<Timestamp>, step: Step)
    requires Inv(o) && step.op.DoEnqueue?
    ensures Sound(cfg, o, Enqueue(cfg, o, input, enqueuedAt, nextAttemptAt, step.now).0, step)
  {
    Unchanged(cfg, o, step);
    TryEnqueueStep(cfg, o, input, enqueuedAt, nextAttemptAt, step);
    if TryEnqueue(cfg, o, input, enqueuedAt, nextAttemptAt, step.now).1 == Failed(OutboxFull) {
      var p := Pruned(cfg, o, step.now);
      PruneStep(cfg, o, step);
      TryEnqueueStep(cfg, p, input, enqueuedAt, nextAttemptAt, step);
      ThroughPruning(cfg, o, TryEnqueue(cfg, p, input, enqueuedAt, nextAttemptAt, step.now).0, step);
    }
  }

  lemma CrashStep(cfg: Config, o: Outbox, step: Step)
    requires Inv(o) && step.op.Crash?
    ensures Sound(cfg, o, Reopen(cfg, o, step.now), step)
  {
    var r := ResetInflight(o, step.now);
    ResetKeeps(o, step.now);
    PruneStep(cfg, r, step);
    forall k | Has(o, k) ensures Preserves(cfg, o, Pruned(cfg, r, step.now), step, k) {
      assert Has(r, k) && Preserves(cfg, r, Pruned(cfg, r, step.now), step, k);
    }
  }

  lemma BesideStep(cfg: Config, o: Outbox, step: Step)
    requires Inv(o)
    requires step.op.DoClearPause? || step.op.DoBeginRotation? || step.op.DoAdvanceRotation?
    ensures Sound(cfg, o, Next(cfg, o, step), step)
  {
    Unchanged(cfg, o, step);
    SameBucketsSound(cfg, o, o, Next(cfg, o, step), step);
  }

  lemma DeleteStep(cfg: Config, o: Outbox, step: Step)
    requires Inv(o) && step.op.DoDelete?
    ensures Sound(cfg, o, Delete(o, step.op.id).0, step)
  {
    DeleteKeeps(o, step.op.id);
    assert o.deliveries.Keys !! o.quarantine.Keys;
    hide Inv;
  }

  /** Every transaction and every crash keeps the invariant, and treats each record it finds as Preserves says. */
  lemma StepSound(cfg: Config, o: Outbox, step: Step)
    requires Inv(o)
    ensures Sound(cfg, o, Next(cfg, o, step), step)
  {
    hide Inv, Sound, Used, MoveFits, Matches, Moved;
    if Rewrites(step.op) {
      RewritesStep(cfg, o, step);
    } else if Moves(step.op) {
      MovesStep(cfg, o, step);
    } else {
      match step.op
      case DoEnqueue(input, enqueuedAt, nextAttemptAt) => EnqueueStep(cfg, o, input, enqueuedAt, nextAttemptAt, step);
      case DoPrune => PruneStep(cfg, o, step);
      case Crash => CrashStep(cfg, o, step);
      case DoDelete(_) => DeleteStep(cfg, o, step);
      case _ => BesideStep(cfg, o, step);
    }
  }

  // Runs

  lemma {:induction false} RunKeepsInvariant(cfg: Config, o: Outbox, steps: seq<Step>)
    requires Inv(o)
    ensures Inv(Run(cfg, o, steps))
  {
    if steps != [] {
      RunKeepsInvariant(cfg, o, steps[..|steps| - 1]);
      StepSound(cfg, Run(cfg, o, steps[..|steps| - 1]), steps[|steps| - 1]);
    }
  }

  /** Step j of the run moved the delivery to quarantine, under that step's clock reading. */
  ghost predicate SetAsideAt(cfg: Config, o: Outbox, steps: seq<Step>, id: Key, j: nat) {
    && j < |steps|
    && id in Run(cfg, o, steps[..j]).deliveries
    && id in Run(cfg, o, steps[..j + 1]).quarantine
    && Run(cfg, o, steps[..j + 1]).quarantine[id].quarantinedAt == Some(steps[j].now)
  }

  /** Step i of the run ended the life of the delivery in a way the store allows. */
  ghost predicate EndsAt(cfg: Config, o: Outbox, steps: seq<Step>, original: Delivery, id: Key, i: nat) {
    && i < |steps|
    && var before := Run(cfg, o, steps[..i]);
    && Has(before, id) && SameDelivery(original, At(before, id))
    && (|| steps[i].op == DoDelete(id)
        || (MakesRoom(steps[i].op) && exists j | 0 <= j < i :: SetAsideAt(cfg, o, steps, id, j) && steps[j].now + cfg.retention <= steps[i].now))
  }

  ghost predicate Survives(cfg: Config, o: Outbox, steps: seq<Step>, original: Delivery, id: Key) {
    && var final := Run(cfg, o, steps);
    && Has(final, id) && SameDelivery(original, At(final, id))
    && (id in final.deliveries <==> id !in final.quarantine)
    && (id in final.quarantine ==>
          exists j | 0 <= j < |steps| :: SetAsideAt(cfg, o, steps, id, j) && final.quarantine[id].quarantinedAt == Some(steps[j].now))
  }

  lemma RunPrefix(cfg: Config, o: Outbox, steps: seq<Step>, n: nat, j: nat)
    requires j <= n <= |steps|
    ensures steps[..n][..j] == steps[..j]
  {
  }

  lemma EarlierStep(cfg: Config, o: Outbox, steps: seq<Step>, id: Key, n: nat, j: nat)
    requires n <= |steps| && SetAsideAt(cfg, o, steps[..n], id, j)
    ensures SetAsideAt(cfg, o, steps, id, j)
  {
    RunPrefix(cfg, o, steps, n, j);
    RunPrefix(cfg, o, steps, n, j + 1);
  }

  lemma EarlierEnd(cfg: Config, o: Outbox, steps: seq<Step>, original: Delivery, id: Key, n: nat, i: nat)
    requires n <= |steps| && EndsAt(cfg, o, steps[..n], original, id, i)
    ensures EndsAt(cfg, o, steps, original, id, i)
  {
    RunPrefix(cfg, o, steps, n, i);
    if steps[i].op != DoDelete(id) {
      var j :| 0 <= j < i && SetAsideAt(cfg, o, steps[..n], id, j) && steps[j].now + cfg.retention <= steps[i].now;
      EarlierStep(cfg, o, steps, id, n, j);
    }
  }

  /**
   A waiting delivery is never lost: whatever the run, crashes included, it is still in exactly one bucket
   with everything the caller gave unchanged, unless a step deleted it by name or pruned it no earlier than
   the retention after the step that set it aside.
   */
  lemma {:induction false} Conservation(cfg: Config, o: Outbox, steps: seq<Step>, id: Key)
    requires Inv(o) && id in o.deliveries
    ensures Survives(cfg, o, steps, o.deliveries[id], id)
         || exists i | 0 <= i < |steps| :: EndsAt(cfg, o, steps, o.deliveries[id], id, i)
    decreases |steps|
  {
    if steps != [] {
      var n := |steps| - 1;
      var original := o.deliveries[id];
      Conservation(cfg, o, steps[..n], id);
      RunKeepsInvariant(cfg, o, steps[..n]);
      if Survives(cfg, o, steps[..n], original, id) {
        LastStep(cfg, o, steps, original, id);
      } else {
        var i :| 0 <= i < n && EndsAt(cfg, o, steps[..n], original, id, i);
        EarlierEnd(cfg, o, steps, original, id, n, i);
      }
    }
  }

  lemma LastStep(cfg: Config, o: Outbox, steps: seq<Step>, original: Delivery, id: Key)
    requires steps != [] && Inv(Run(cfg, o, steps[..|steps| - 1]))
    requires Survives(cfg, o, steps[..|steps| - 1], original, id)
    ensures Survives(cfg, o, steps, original, id) || EndsAt(cfg, o, steps, original, id, |steps| - 1)
  {
    var n := |steps| - 1;
    var before := Run(cfg, o, steps[..n]);
    StepSound(cfg, before, steps[n]);
    assert Preserves(cfg, before, Run(cfg, o, steps), steps[n], id);
    assert steps[..n + 1] == steps;
    if id in before.quarantine {
      var j :| 0 <= j < n && SetAsideAt(cfg, o, steps[..n], id, j) && before.quarantine[id].quarantinedAt == Some(steps[j].now);
      EarlierStep(cfg, o, steps, id, n, j);
    } else if id in Run(cfg, o, steps).quarantine {
      assert SetAsideAt(cfg, o, steps, id, n);
    }
  }
}

/** What each step does to the state, the attempts and the due time of a record, said apart from how it does it. */
module OutboxHistory {
  import opened Common
  import opened BucketOrder
  import opened OutboxTypes
  import opened Outbox
  import opened OutboxInvariant
  import opened OutboxRuns

  predicate Attempted(step: Step, done: bool, k: Key) {
    done && (step.op.DoRetry? || step.op.DoPause?) && step.op.id == k
  }

  /** A crash puts what was inflight back to pending, due at once. */
  predicate PutBack(step: Step, a: Delivery) {
    step.op.Crash? && a.state.Inflight?
  }

  predicate Evolves(o: Outbox, o': Outbox, step: Step, done: bool, k: Key)
    requires Has(o, k) && Has(o', k)
  {
    var a, b := At(o, k), At(o', k);
    && b.attempts == a.attempts + (if Attempted(step, done, k) then 1 else 0)
    && b.nextAttemptAt == (if Attempted(step, done, k) && step.op.DoRetry? then step.op.next
                           else if PutBack(step, a) then step.now else a.nextAttemptAt)
    && b.state == (if k in o.deliveries && k in o'.quarantine then Quarantined
                   else if done && step.op == DoMarkInflight(k) then Inflight
                   else if Attempted(step, done, k) || PutBack(step, a) then Pending
                   else a.state)
    && (done && step.op == DoMarkInflight(k) ==> a.state.Pending?)
  }

  ghost predicate AllEvolve(o: Outbox, o': Outbox, step: Step, done: bool) {
    forall k | Has(o, k) && Has(o', k) :: Evolves(o, o', step, done, k)
  }

  /** Records that stay stay as they are, and the step names none of them. */
  lemma UntouchedEvolve(o: Outbox, o': Outbox, step: Step, done: bool)
    requires forall k | Has(o, k) && Has(o', k) :: At(o', k) == At(o, k)
    requires forall k | k in o'.quarantine :: k !in o.deliveries
    requires done ==> !step.op.DoRetry? && !step.op.DoPause? && !step.op.DoMarkInflight?
    requires !step.op.Crash?
    ensures AllEvolve(o, o', step, done)
  {
  }

  lemma MovedEvolve(o: Outbox, keys: seq<Key>, cause: Cause, step: Step, done: bool)
    requires Inv(o) && (forall k | k in keys :: k in o.deliveries) && Moves(step.op)
    ensures AllEvolve(o, Moved(o, keys, cause, step.now), step, done)
  {
    var o' := Moved(o, keys, cause, step.now);
    forall k | Has(o, k) && Has(o', k) ensures Evolves(o, o', step, done, k) {
      if k in keys {
        assert o'.quarantine[k] == Stamp(cause, o.deliveries[k], step.now);
      }
    }
  }

  lemma SameBucketsEvolve(o: Outbox, m: Outbox, o': Outbox, step: Step, done: bool)
    requires AllEvolve(o, m, step, done) && o'.deliveries == m.deliveries && o'.quarantine == m.quarantine
    ensures AllEvolve(o, o', step, done)
  {
    forall k | Has(o, k) && Has(o', k) ensures Evolves(o, o', step, done, k) {
      assert Has(m, k) && Evolves(o, m, step, done, k);
    }
  }

  lemma RewriteEvolves(o: Outbox, id: Key, record: Delivery, step: Step)
    requires Inv(o) && id in o.deliveries
    requires Rewrites(step.op) && step.op.id == id
    requires var d := o.deliveries[id];
             match step.op
             case DoMarkInflight(_) => d.state.Pending? && record == d.(state := Inflight)
             case DoRetry(_, next, failure) =>
               record == d.(state := Pending, attempts := d.attempts + 1, nextAttemptAt := next, last := failure)
             case DoPause(_, _, failure) => record == d.(state := Pending, attempts := d.attempts + 1, last := failure)
    ensures AllEvolve(o, o.(deliveries := o.deliveries[id := record]), step, true)
  {
  }

  lemma RewritesEvolve(cfg: Config, o: Outbox, step: Step)
    requires Inv(o) && Rewrites(step.op)
    ensures var (o', r) := Apply(cfg, o, step); AllEvolve(o, o', step, r.Done?)
  {
    hide AllEvolve, Used, Inv;
    var (o', r) := Apply(cfg, o, step);
    var id := step.op.id;
    if r.Failed? {
      StayEvolves(o, step);
    } else {
      var d := o.deliveries[id];
      match step.op
      case DoMarkInflight(_) =>
        RewriteEvolves(o, id, d.(state := Inflight), step);
      case DoRetry(_, next, failure) =>
        RewriteEvolves(o, id, d.(state := Pending, attempts := d.attempts + 1, nextAttemptAt := next, last := failure), step);
      case DoPause(_, _, failure) =>
        var record := d.(state := Pending, attempts := d.attempts + 1, last := failure);
        RewriteEvolves(o, id, record, step);
        SameBucketsEvolve(o, o.(deliveries := o.deliveries[id := record]), o', step, true);
    }
  }

  lemma StayEvolves(o: Outbox, step: Step)
    requires Inv(o) && !step.op.Crash?
    ensures AllEvolve(o, o, step, false)
  {
  }

  lemma MoveResult(cfg: Config, o: Outbox, keys: seq<Key>, cause: Cause, step: Step, o': Outbox, done: bool)
    requires Inv(o) && (forall k | k in keys :: k in o.deliveries) && Moves(step.op)
    requires var m := Move(cfg, o, keys, cause, step.now).0; o'.deliveries == m.deliveries && o'.quarantine == m.quarantine
    ensures AllEvolve(o, o', step, done)
  {
    hide AllEvolve, MoveFits, Moved, Inv;
    MovedEvolve(o, keys, cause, step, done);
    NothingEvolves(o, step, done);
    SameBucketsEvolve(o, Move(cfg, o, keys, cause, step.now).0, o', step, done);
  }

  lemma NothingEvolves(o: Outbox, step: Step, done: bool)
    requires Inv(o) && !step.op.Crash? && !Rewrites(step.op)
    ensures AllEvolve(o, o, step, done)
  {
  }

  lemma MovesEvolve(cfg: Config, o: Outbox, step: Step)
    requires Inv(o) && Moves(step.op)
    ensures var (o', r) := Apply(cfg, o, step); AllEvolve(o, o', step, r.Done?)
  {
    hide AllEvolve, Move, Matches, Inv;
    var (o', r) := Apply(cfg, o, step);
    NothingEvolves(o, step, r.Done?);
    if o' != o {
      match step.op
      case DoResolveCollision(id) => MoveResult(cfg, o, [id], ByOperator, step, o', r.Done?);
      case DoQuarantine(id, reason, failure) => MoveResult(cfg, o, [id], ByFailure(reason, failure), step, o', r.Done?);
      case DoQuarantineByReceiver(agent, reason, failure) =>
        MoveResult(cfg, o, Matches(o, FromReceiver(agent)), ByReceiver(reason, failure), step, o', r.Done?);
      case DoReconcile(b) =>
        MoveResult(cfg, o, Matches(o, NotFrom(PrincipalOf(b))), ByBinding(b), step, o', r.Done?);
      case DoQuarantineRotation =>
        MoveResult(cfg, o, Matches(o, FromInstallation(o.rotation.value.oldInstallationId)), ByRotation, step, o', r.Done?);
    }
  }

  lemma EnqueueEvolves(cfg: Config, o: Outbox, step: Step)
    requires Inv(o) && step.op.DoEnqueue?
    ensures var (o', r) := Apply(cfg, o, step); AllEvolve(o, o', step, r.Done?)
  {
    hide Used, Count, Expired;
    var (o', r) := Apply(cfg, o, step);
    UntouchedEvolve(o, o', step, r.Done?);
  }

  lemma OthersEvolve(cfg: Config, o: Outbox, step: Step)
    requires Inv(o) && !step.op.DoEnqueue? && !step.op.Crash? && !Moves(step.op) && !Rewrites(step.op)
    ensures var (o', r) := Apply(cfg, o, step); AllEvolve(o, o', step, r.Done?)
  {
    hide Expired;
    var (o', r) := Apply(cfg, o, step);
    UntouchedEvolve(o, o', step, r.Done?);
  }

  lemma CrashEvolves(cfg: Config, o: Outbox, step: Step)
    requires Inv(o) && step.op.Crash?
    ensures AllEvolve(o, Next(cfg, o, step), step, true)
  {
    hide Expired;
  }

  /**
   A record's attempts grow only by its own retry or pause, its due time moves only by its own retry or a crash, and
   its state follows pending, inflight, quarantined as the step that was applied says. Every other record is untouched.
   */
  lemma RecordsEvolve(cfg: Config, o: Outbox, step: Step)
    requires Inv(o)
    ensures var (o', r) := Apply(cfg, o, step); AllEvolve(o, o', step, r.Done?)
  {
    hide AllEvolve, Inv, Apply, Next;
    if Rewrites(step.op) {
      RewritesEvolve(cfg, o, step);
    } else if Moves(step.op) {
      MovesEvolve(cfg, o, step);
    } else if step.op.DoEnqueue? {
      EnqueueEvolves(cfg, o, step);
    } else if step.op.Crash? {
      CrashEvolves(cfg, o, step);
      CrashIsDone(cfg, o, step);
    } else {
      OthersEvolve(cfg, o, step);
    }
  }

  lemma CrashIsDone(cfg: Config, o: Outbox, step: Step)
    requires step.op.Crash?
    ensures Apply(cfg, o, step) == (Next(cfg, o, step), Done)
  {
  }

  /** A record that is accepted starts pending, with the sequence after the last one, due when it was said to be. */
  lemma AcceptanceStarts(cfg: Config, o: Outbox, input: Delivery, enqueuedAt: Option<Timestamp>, nextAttemptAt: Option<Timestamp>, now: Timestamp)
    requires Inv(o) && Enqueue(cfg, o, input, enqueuedAt, nextAttemptAt, now).1.Done?
    ensures var o' := Enqueue(cfg, o, input, enqueuedAt, nextAttemptAt, now).0;
            var id := input.event.deliveryId;
            && !Has(o, id) && id in o'.deliveries
            && var d := o'.deliveries[id];
            && d.event == input.event && d.state.Pending? && d.sequence == o.lastSequence + 1 == o'.lastSequence
            && d.enqueuedAt == (if enqueuedAt.Some? then enqueuedAt.value else now)
            && d.nextAttemptAt == (if nextAttemptAt.Some? then nextAttemptAt.value else d.enqueuedAt)
            && (forall k | Has(o, k) :: At(o, k).sequence < d.sequence)
            && (forall k | k in o.deliveries :: k in o'.deliveries && o'.deliveries[k] == o.deliveries[k])
  {
    hide Used, Count, Expired;
  }
}

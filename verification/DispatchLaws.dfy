/** Safety and progress of the dispatcher. */
module DispatchLaws {
  import opened Common
  import opened BucketOrder
  import opened OutboxTypes
  import O = Outbox
  import opened OutboxInvariant
  import opened OutboxRuns
  import opened DueIndex
  import OutboxLaws
  import opened Dispatch

  /** The transactions a dispatch commits, in order. */
  ghost function Transactions(cfg: Config, o: O.Outbox, b: Binding, now: Timestamp, call: Call): seq<Step>
    requires ClockFits(now, call.response)
  {
    var clear := Step(DoClearPause(b), call.reconcileAt);
    var cleared := Apply(cfg, o, clear);
    if cleared.1.Failed? || cleared.0.pause.Some? then [clear] else
      var reconcile := Step(DoReconcile(b), call.reconcileAt);
      var reconciled := Apply(cfg, cleared.0, reconcile);
      var next := DueIndex.NextDue(reconciled.0, now);
      if reconciled.1.Failed? || next.None? then [clear, reconcile] else
        var mark := Step(DoMarkInflight(next.value.event.deliveryId), call.reconcileAt);
        if Apply(cfg, reconciled.0, mark).1.Failed? then [clear, reconcile, mark]
        else [clear, reconcile, mark, Step(SettlingOp(next.value, b, now, call.response), call.settleAt)]
  }

  lemma RunOne(cfg: Config, o: O.Outbox, steps: seq<Step>, last: Step)
    ensures Run(cfg, o, steps + [last]) == Next(cfg, Run(cfg, o, steps), last)
  {
    hide Next;
    assert (steps + [last])[..|steps|] == steps;
  }

  lemma RunUpTo4(cfg: Config, o: O.Outbox, a: Step, b: Step, c: Step, d: Step)
    ensures Run(cfg, o, [a]) == Next(cfg, o, a)
    ensures Run(cfg, o, [a, b]) == Next(cfg, Next(cfg, o, a), b)
    ensures Run(cfg, o, [a, b, c]) == Next(cfg, Next(cfg, Next(cfg, o, a), b), c)
    ensures Run(cfg, o, [a, b, c, d]) == Next(cfg, Next(cfg, Next(cfg, Next(cfg, o, a), b), c), d)
  {
    hide Next;
    assert Run(cfg, o, []) == o;
    assert [] + [a] == [a] && [a] + [b] == [a, b] && [a, b] + [c] == [a, b, c] && [a, b, c] + [d] == [a, b, c, d];
    RunOne(cfg, o, [], a);
    RunOne(cfg, o, [a], b);
    RunOne(cfg, o, [a, b], c);
    RunOne(cfg, o, [a, b, c], d);
  }

  /** A dispatch is a run of outbox transactions, so a crash inside one leaves what a prefix of that run leaves. */
  lemma DispatchIsRun(cfg: Config, o: O.Outbox, b: Binding, now: Timestamp, call: Call)
    requires ClockFits(now, call.response)
    ensures DispatchOnce(cfg, o, b, now, call).outbox == Run(cfg, o, Transactions(cfg, o, b, now, call))
  {
    hide O.Reconcile, O.MarkInflight, DueIndex.NextDue, SettlingOp, Run, O.ClearResolvedPause;
    var t := Transactions(cfg, o, b, now, call);
    var last := t[|t| - 1];
    if |t| == 1 {
      assert t == [last];
      RunUpTo4(cfg, o, last, last, last, last);
    } else if |t| == 2 {
      assert t == [t[0], last];
      RunUpTo4(cfg, o, t[0], last, last, last);
    } else if |t| == 3 {
      assert t == [t[0], t[1], last];
      RunUpTo4(cfg, o, t[0], t[1], last, last);
    } else {
      assert t == [t[0], t[1], t[2], last];
      RunUpTo4(cfg, o, t[0], t[1], t[2], last);
    }
  }

  lemma DispatchKeepsInvariant(cfg: Config, o: O.Outbox, b: Binding, now: Timestamp, call: Call)
    requires Inv(o) && ClockFits(now, call.response)
    ensures Inv(DispatchOnce(cfg, o, b, now, call).outbox)
  {
    hide Inv, Run, DispatchOnce, Transactions;
    DispatchIsRun(cfg, o, b, now, call);
    RunKeepsInvariant(cfg, o, Transactions(cfg, o, b, now, call));
  }

  lemma NextDueIsWaiting(o: O.Outbox, now: Timestamp)
    requires Inv(o) && DueIndex.NextDue(o, now).Some?
    ensures var d := DueIndex.NextDue(o, now).value;
            var id := d.event.deliveryId;
            id in o.deliveries && o.deliveries[id] == d && d.state.Pending? && d.nextAttemptAt <= now
  {
    var d := DueIndex.NextDue(o, now).value;
    var id :| id in o.deliveries && o.deliveries[id] == d;
  }

  lemma MarkedState(cfg: Config, o: O.Outbox, id: Key)
    requires id in o.deliveries && O.MarkInflight(cfg, o, id).1.Done?
    ensures O.MarkInflight(cfg, o, id).0 == o.(deliveries := o.deliveries[id := o.deliveries[id].(state := Inflight)])
    ensures o.deliveries[id].state.Pending?
  {
  }

  ghost function Reconciled(cfg: Config, o: O.Outbox, b: Binding, call: Call): (O.Outbox, Reply) {
    O.Reconcile(cfg, O.ClearResolvedPause(o, b).0, b, call.reconcileAt)
  }

  lemma ReconciledIsConsistent(cfg: Config, o: O.Outbox, b: Binding, call: Call)
    requires Inv(o)
    ensures Inv(O.ClearResolvedPause(o, b).0) && Inv(Reconciled(cfg, o, b, call).0)
  {
    hide Inv, O.Reconcile, O.ClearResolvedPause, Preserves;
    StepSound(cfg, o, Step(DoClearPause(b), call.reconcileAt));
    StepSound(cfg, O.ClearResolvedPause(o, b).0, Step(DoReconcile(b), call.reconcileAt));
  }

  /** Where a dispatch that posts has been. */
  lemma PostingPath(cfg: Config, o: O.Outbox, b: Binding, now: Timestamp, call: Call)
    requires ClockFits(now, call.response) && DispatchOnce(cfg, o, b, now, call).post.Some?
    ensures var post := DispatchOnce(cfg, o, b, now, call).post.value;
            var r := Reconciled(cfg, o, b, call);
            var marked := O.MarkInflight(cfg, r.0, post.delivery.event.deliveryId);
            && O.ClearResolvedPause(o, b).0.pause.None? && r.1.Done?
            && DueIndex.NextDue(r.0, now) == Some(post.delivery)
            && marked == (post.stored, Done)
            && DispatchOnce(cfg, o, b, now, call) == Finish(cfg, post.stored, post.delivery, b, now, call)
  {
    hide O.Reconcile, O.MarkInflight, DueIndex.NextDue, SettlingOp, O.ClearResolvedPause, Apply;
  }

  /** The record a dispatch posts, before and after it is marked. */
  lemma PostingStates(cfg: Config, o: O.Outbox, b: Binding, now: Timestamp, call: Call)
    requires Inv(o) && ClockFits(now, call.response) && DispatchOnce(cfg, o, b, now, call).post.Some?
    ensures var post := DispatchOnce(cfg, o, b, now, call).post.value;
            var r := Reconciled(cfg, o, b, call).0;
            var id := post.delivery.event.deliveryId;
            && Inv(r) && id in r.deliveries && post.delivery == r.deliveries[id]
            && post.delivery.state.Pending? && post.delivery.nextAttemptAt <= now
            && post.stored == r.(deliveries := r.deliveries[id := post.delivery.(state := Inflight)])
  {
    hide *;
    PostingPath(cfg, o, b, now, call);
    ReconciledIsConsistent(cfg, o, b, call);
    var r := Reconciled(cfg, o, b, call).0;
    NextDueIsWaiting(r, now);
    MarkedState(cfg, r, DispatchOnce(cfg, o, b, now, call).post.value.delivery.event.deliveryId);
  }

  lemma ReconcileBeside(cfg: Config, o: O.Outbox, b: Binding, at: Timestamp)
    ensures O.Reconcile(cfg, o, b, at).0.pause == o.pause
  {
    hide O.MoveFits, O.Matches;
  }

  /** A dispatch sends only while no pause is stored, and only a record of the caller's principal that is already durably inflight. */
  lemma PostsSafely(cfg: Config, o: O.Outbox, b: Binding, now: Timestamp, call: Call)
    requires Inv(o) && ClockFits(now, call.response)
    ensures DispatchOnce(cfg, o, b, now, call).post.Some? ==>
              var post := DispatchOnce(cfg, o, b, now, call).post.value;
              var id := post.delivery.event.deliveryId;
              && post.stored.pause.None?
              && id in post.stored.deliveries
              && post.stored.deliveries[id] == post.delivery.(state := Inflight)
              && SenderOf(post.delivery) == PrincipalOf(b)
              && post.delivery.nextAttemptAt <= now
  {
    hide Inv, DispatchOnce, O.Reconcile, O.ClearResolvedPause, Finish;
    if DispatchOnce(cfg, o, b, now, call).post.Some? {
      PostingStates(cfg, o, b, now, call);
      PostingPath(cfg, o, b, now, call);
      ReconciledIsConsistent(cfg, o, b, call);
      var cleared := O.ClearResolvedPause(o, b).0;
      OutboxLaws.ReconcileAgrees(cfg, cleared, b, call.reconcileAt);
      ReconcileBeside(cfg, cleared, b, call.reconcileAt);
    }
  }

  // Progress

  ghost function DueNow(o: O.Outbox, now: Timestamp): set<Key> {
    set id | id in o.deliveries && o.deliveries[id].state.Pending? && o.deliveries[id].nextAttemptAt <= now
  }

  ghost function InflightOf(o: O.Outbox): set<Key> {
    set id | id in o.deliveries && o.deliveries[id].state.Inflight?
  }

  /** Fewer or equal due and inflight records. */
  ghost predicate NoMoreWork(o: O.Outbox, o': O.Outbox, now: Timestamp) {
    DueNow(o', now) <= DueNow(o, now) && InflightOf(o') <= InflightOf(o)
  }

  lemma ReconcileShrinks(cfg: Config, o: O.Outbox, b: Binding, at: Timestamp, now: Timestamp)
    ensures NoMoreWork(o, O.Reconcile(cfg, o, b, at).0, now)
  {
    hide O.MoveFits, O.Matches;
  }

  /** A settling transaction leaves every other waiting record alone. */
  lemma OnlyOneDiffers(cfg: Config, m: O.Outbox, d: Delivery, b: Binding, now: Timestamp, call: Call)
    requires ClockFits(now, call.response) && d.event.deliveryId in m.deliveries
    requires m.deliveries[d.event.deliveryId] == d.(state := Inflight)
    requires !Finish(cfg, m, d, b, now, call).outcome.Broken?
    ensures var id := d.event.deliveryId;
            var o' := Finish(cfg, m, d, b, now, call).outbox;
            var op := SettlingOp(d, b, now, call.response);
            && o'.deliveries - {id} == m.deliveries - {id}
            && (match op
                case DoPause(_, _, _) =>
                  id in o'.deliveries && o'.deliveries[id].state.Pending? && o'.pause.Some? && !O.Resolves(o'.pause.value, b)
                case DoRetry(_, next, _) =>
                  id in o'.deliveries && o'.deliveries[id].state.Pending? && o'.deliveries[id].nextAttemptAt == next > now && o'.pause == m.pause
                case _ => id !in o'.deliveries && o'.pause == m.pause)
  {
    hide O.Used;
    var id := d.event.deliveryId;
    var step := Step(SettlingOp(d, b, now, call.response), call.settleAt);
    match step.op
    case DoQuarantine(_, reason, failure) =>
      assert O.Range([id]) == {id};
    case _ =>
  }

  /** What the settling transaction does to the due and inflight sets. */
  lemma SettlingShrinks(cfg: Config, r: O.Outbox, m: O.Outbox, o': O.Outbox, id: Key, pausing: bool, now: Timestamp)
    requires Inv(r) && id in r.deliveries && r.deliveries[id].state.Pending? && r.deliveries[id].nextAttemptAt <= now
    requires m == r.(deliveries := r.deliveries[id := r.deliveries[id].(state := Inflight)])
    requires o'.deliveries - {id} == m.deliveries - {id}
    requires id in o'.deliveries ==> o'.deliveries[id].state.Pending? && (pausing || o'.deliveries[id].nextAttemptAt > now)
    ensures InflightOf(o') <= InflightOf(r) && DueNow(o', now) <= DueNow(r, now)
    ensures !pausing ==> id in DueNow(r, now) && id !in DueNow(o', now)
  {
    assert forall k | k in o'.deliveries && k != id :: k in o'.deliveries - {id};
    assert forall k | k in o'.deliveries && k != id :: k in r.deliveries && o'.deliveries[k] == r.deliveries[k] by {
      forall k | k in o'.deliveries && k != id ensures k in r.deliveries && o'.deliveries[k] == r.deliveries[k] {
        assert k in m.deliveries - {id} && (o'.deliveries - {id})[k] == (m.deliveries - {id})[k];
      }
    }
  }

  lemma FewerThan<T>(a: set<T>, b: set<T>, x: T)
    requires a <= b && x in b && x !in a
    ensures |a| < |b|
  {
    assert a <= b - {x};
    OutboxLaws.SubsetIsSmaller(a, b - {x});
  }

  /**
   Every dispatch that posts and meets no error lowers the number of due records, or stores a pause;
   and no dispatch without error leaves more inflight records than it found.
   */
  lemma DispatchMakesProgress(cfg: Config, o: O.Outbox, b: Binding, now: Timestamp, call: Call)
    requires Inv(o) && ClockFits(now, call.response)
    ensures var d := DispatchOnce(cfg, o, b, now, call);
            !d.outcome.Broken? ==>
              && NoMoreWork(o, d.outbox, now)
              && (|| d.post.None?
                  || |DueNow(d.outbox, now)| < |DueNow(o, now)|
                  || (d.outbox.pause.Some? && !O.Resolves(d.outbox.pause.value, b) && DueNow(o, now) != {}))
  {
    var d := DispatchOnce(cfg, o, b, now, call);
    if !d.outcome.Broken? {
      if d.post.Some? {
        PostMakesProgress(cfg, o, b, now, call);
      } else {
        IdleMakesProgress(cfg, o, b, now, call);
      }
    }
  }

  lemma IdleMakesProgress(cfg: Config, o: O.Outbox, b: Binding, now: Timestamp, call: Call)
    requires ClockFits(now, call.response)
    requires DispatchOnce(cfg, o, b, now, call).post.None? && !DispatchOnce(cfg, o, b, now, call).outcome.Broken?
    ensures NoMoreWork(o, DispatchOnce(cfg, o, b, now, call).outbox, now)
  {
    var cleared := O.ClearResolvedPause(o, b).0;
    assert NoMoreWork(o, cleared, now);
    hide O.Reconcile, O.MarkInflight, DueIndex.NextDue, SettlingOp, O.ClearResolvedPause, Apply;
    ReconcileShrinks(cfg, cleared, b, call.reconcileAt, now);
  }

  lemma PostMakesProgress(cfg: Config, o: O.Outbox, b: Binding, now: Timestamp, call: Call)
    requires Inv(o) && ClockFits(now, call.response)
    requires DispatchOnce(cfg, o, b, now, call).post.Some? && !DispatchOnce(cfg, o, b, now, call).outcome.Broken?
    ensures var d := DispatchOnce(cfg, o, b, now, call);
            && NoMoreWork(o, d.outbox, now)
            && (|| |DueNow(d.outbox, now)| < |DueNow(o, now)|
                || (d.outbox.pause.Some? && !O.Resolves(d.outbox.pause.value, b) && DueNow(o, now) != {}))
  {
    var cleared := O.ClearResolvedPause(o, b).0;
    assert NoMoreWork(o, cleared, now);
    hide O.Reconcile, O.MarkInflight, DueIndex.NextDue, SettlingOp, O.ClearResolvedPause, Apply, DispatchOnce, Finish, Inv, O.Resolves;
    var d := DispatchOnce(cfg, o, b, now, call);
    var post := d.post.value;
    var id := post.delivery.event.deliveryId;
    var r := Reconciled(cfg, o, b, call).0;
    PostingPath(cfg, o, b, now, call);
    PostingStates(cfg, o, b, now, call);
    ReconcileShrinks(cfg, cleared, b, call.reconcileAt, now);
    OnlyOneDiffers(cfg, post.stored, post.delivery, b, now, call);
    var op := SettlingOp(post.delivery, b, now, call.response);
    SettlingShrinks(cfg, r, post.stored, d.outbox, id, op.DoPause?, now);
    assert id in DueNow(r, now) && id in DueNow(o, now);
    if !op.DoPause? {
      FewerThan(DueNow(d.outbox, now), DueNow(o, now), id);
    }
  }

  /** A pause no generation of the caller resolves blocks the next dispatch and leaves the outbox as it is. */
  lemma PauseBlocks(cfg: Config, o: O.Outbox, b: Binding, now: Timestamp, call: Call)
    requires ClockFits(now, call.response) && o.pause.Some? && !O.Resolves(o.pause.value, b)
    ensures DispatchOnce(cfg, o, b, now, call).outbox == o && DispatchOnce(cfg, o, b, now, call).post.None?
  {
  }

  /** A dispatch never stores a pause over another: it leaves a stored one alone unless the caller's generations resolve it. */
  lemma NeverOverwritesPause(cfg: Config, o: O.Outbox, b: Binding, now: Timestamp, call: Call)
    requires Inv(o) && ClockFits(now, call.response)
    ensures var d := DispatchOnce(cfg, o, b, now, call);
            && (d.outbox.pause != o.pause ==> o.pause.None? || O.Resolves(o.pause.value, b))
            && (d.post.Some? ==> d.post.value.stored.pause.None?)
  {
    hide DispatchOnce, O.Resolves, Inv;
    PostsSafely(cfg, o, b, now, call);
    if o.pause.Some? && !O.Resolves(o.pause.value, b) {
      PauseBlocks(cfg, o, b, now, call);
    }
  }

  // Draining: repeated dispatches at one time under one binding

  ghost function Drained(cfg: Config, o: O.Outbox, b: Binding, now: Timestamp, calls: seq<Call>): O.Outbox
    requires forall c | c in calls :: ClockFits(now, c.response)
    decreases |calls|
  {
    if calls == [] then o else Drained(cfg, DispatchOnce(cfg, o, b, now, calls[0]).outbox, b, now, calls[1..])
  }

  ghost function Posts(cfg: Config, o: O.Outbox, b: Binding, now: Timestamp, calls: seq<Call>): nat
    requires forall c | c in calls :: ClockFits(now, c.response)
    decreases |calls|
  {
    if calls == [] then 0 else
      var d := DispatchOnce(cfg, o, b, now, calls[0]);
      (if d.post.Some? then 1 else 0) + Posts(cfg, d.outbox, b, now, calls[1..])
  }

  ghost predicate Unbroken(cfg: Config, o: O.Outbox, b: Binding, now: Timestamp, calls: seq<Call>)
    requires forall c | c in calls :: ClockFits(now, c.response)
    decreases |calls|
  {
    calls == [] ||
    (var d := DispatchOnce(cfg, o, b, now, calls[0]);
     !d.outcome.Broken? && Unbroken(cfg, d.outbox, b, now, calls[1..]))
  }

  lemma {:induction false} BlockedPostsNothing(cfg: Config, o: O.Outbox, b: Binding, now: Timestamp, calls: seq<Call>)
    requires forall c | c in calls :: ClockFits(now, c.response)
    requires o.pause.Some? && !O.Resolves(o.pause.value, b)
    ensures Posts(cfg, o, b, now, calls) == 0
    decreases |calls|
  {
    hide DispatchOnce, O.Resolves;
    if calls != [] {
      PauseBlocks(cfg, o, b, now, calls[0]);
      BlockedPostsNothing(cfg, o, b, now, calls[1..]);
    }
  }

  /** Draining terminates: however many error-free dispatches run at one time, they post no more often than records were due. */
  lemma {:induction false} DrainIsBounded(cfg: Config, o: O.Outbox, b: Binding, now: Timestamp, calls: seq<Call>)
    requires forall c | c in calls :: ClockFits(now, c.response)
    requires Inv(o) && Unbroken(cfg, o, b, now, calls)
    ensures Posts(cfg, o, b, now, calls) <= |DueNow(o, now)|
    ensures InflightOf(Drained(cfg, o, b, now, calls)) <= InflightOf(o)
    decreases |calls|
  {
    hide DispatchOnce, O.Resolves, Inv, DueNow, InflightOf;
    if calls != [] {
      var d := DispatchOnce(cfg, o, b, now, calls[0]);
      DispatchKeepsInvariant(cfg, o, b, now, calls[0]);
      DispatchMakesProgress(cfg, o, b, now, calls[0]);
      DrainIsBounded(cfg, d.outbox, b, now, calls[1..]);
      OutboxLaws.SubsetIsSmaller(DueNow(d.outbox, now), DueNow(o, now));
      if d.post.Some? && |DueNow(d.outbox, now)| >= |DueNow(o, now)| {
        BlockedPostsNothing(cfg, d.outbox, b, now, calls[1..]);
        assert |DueNow(o, now)| > 0;
      }
    }
  }
}

/** Installation rotation from any crash point. */
module RotationLaws {
  import opened Common
  import opened BucketOrder
  import T = OutboxTypes
  import O = Outbox
  import opened OutboxInvariant
  import opened OutboxRuns
  import OutboxLaws
  import opened ReceiverState
  import opened InstallationRotation

  ghost predicate NoneFrom(o: O.Outbox, id: string) {
    forall k | k in o.deliveries :: o.deliveries[k].event.installationId != id
  }

  /** How far the journal is decides which identity the receiver state can hold. */
  ghost predicate Underway(w: World, oldId: string, newId: string) {
    && Inv(w.outbox) && oldId != newId
    && w.outbox.rotation.Some?
    && var journal := w.outbox.rotation.value;
    && journal.oldInstallationId == oldId && journal.newInstallationId == newId
    && match journal.phase
       case Intent => w.data.installationId == oldId
       case OldBindingQuarantined =>
         w.data.installationId == oldId || (w.data.installationId == newId && Unbound(w.data))
       case StateRotated => w.data.installationId == newId && Unbound(w.data)
       case Completed => w.data.installationId == newId && Unbound(w.data)
  }

  // What may happen between two writes of a rotation

  datatype Act = NextOne(now: Timestamp) | Elsewhere(step: Step)

  /** Everything but the steps of a rotation, which only the coordinator makes. */
  predicate Allowed(act: Act) {
    act.Elsewhere? ==> !act.step.op.DoBeginRotation? && !act.step.op.DoQuarantineRotation? && !act.step.op.DoAdvanceRotation?
  }

  predicate AllAllowed(acts: seq<Act>) {
    forall i | 0 <= i < |acts| :: Allowed(acts[i])
  }

  ghost function Perform(cfg: T.Config, w: World, act: Act): World {
    match act
    case NextOne(now) => if w.outbox.rotation.Some? && NextWrite(cfg, w, now).Write? then NextWrite(cfg, w, now).world else w
    case Elsewhere(step) => w.(outbox := Next(cfg, w.outbox, step))
  }

  ghost function PerformAll(cfg: T.Config, w: World, acts: seq<Act>): World
    decreases |acts|
  {
    if acts == [] then w else Perform(cfg, PerformAll(cfg, w, acts[..|acts| - 1]), acts[|acts| - 1])
  }

  lemma QuarantineLeavesNone(cfg: T.Config, o: O.Outbox, now: Timestamp)
    requires Inv(o) && o.rotation.Some? && o.rotation.value.phase == T.Intent
    requires O.QuarantineRotation(cfg, o, now).1.Done?
    ensures var oldId := o.rotation.value.oldInstallationId;
            var o' := O.QuarantineRotation(cfg, o, now).0;
            && NoneFrom(o', oldId)
            && (forall k | k in o.deliveries && o.deliveries[k].event.installationId != oldId :: k in o'.deliveries && o'.deliveries[k] == o.deliveries[k])
            && (forall k | k in o.deliveries && o.deliveries[k].event.installationId == oldId ::
                  k in o'.quarantine && SameRecord(o.deliveries[k], o'.quarantine[k]))
            && (forall k | k in o.quarantine :: k in o'.quarantine && o'.quarantine[k] == o.quarantine[k])
  {
    var oldId := o.rotation.value.oldInstallationId;
    var keys := O.Matches(o, O.FromInstallation(oldId));
    QuarantineIsMove(cfg, o, now);
    MovedParts(o, keys, oldId, now);
    hide *;
  }

  lemma QuarantineIsMove(cfg: T.Config, o: O.Outbox, now: Timestamp)
    requires o.rotation.Some? && o.rotation.value.phase == T.Intent
    requires O.QuarantineRotation(cfg, o, now).1.Done?
    ensures var m := O.Moved(o, O.Matches(o, O.FromInstallation(o.rotation.value.oldInstallationId)), O.ByRotation, now);
            var o' := O.QuarantineRotation(cfg, o, now).0;
            o'.deliveries == m.deliveries && o'.quarantine == m.quarantine
  {
    hide O.MoveFits, O.Matches, O.Moved;
  }

  lemma MovedParts(o: O.Outbox, keys: seq<Key>, oldId: string, now: Timestamp)
    requires Inv(o) && forall k :: k in keys <==> k in o.deliveries && o.deliveries[k].event.installationId == oldId
    ensures var o' := O.Moved(o, keys, O.ByRotation, now);
            && (forall k | k in o'.deliveries :: o'.deliveries[k].event.installationId != oldId)
            && (forall k | k in o.deliveries && o.deliveries[k].event.installationId != oldId :: k in o'.deliveries && o'.deliveries[k] == o.deliveries[k])
            && (forall k | k in o.deliveries && o.deliveries[k].event.installationId == oldId ::
                  k in o'.quarantine && SameRecord(o.deliveries[k], o'.quarantine[k]))
            && (forall k | k in o.quarantine :: k in o'.quarantine && o'.quarantine[k] == o.quarantine[k])
  {
    var o' := O.Moved(o, keys, O.ByRotation, now);
    forall k | k in o.deliveries && o.deliveries[k].event.installationId == oldId
      ensures k in o'.quarantine && SameRecord(o.deliveries[k], o'.quarantine[k])
    {
      assert k in keys && o'.quarantine[k] == O.Stamp(O.ByRotation, o.deliveries[k], now);
    }
    forall k | k in o.quarantine ensures k in o'.quarantine && o'.quarantine[k] == o.quarantine[k] {
      assert k !in keys;
    }
  }

  predicate SameRecord(a: T.Delivery, b: T.Delivery) {
    T.SameDelivery(a, b) && a.attempts == b.attempts && b.quarantineReason == T.InstallationRotated
  }

  lemma QuarantinePreserves(cfg: T.Config, o: O.Outbox, now: Timestamp)
    requires Inv(o)
    ensures Inv(O.QuarantineRotation(cfg, o, now).0)
  {
    hide *;
    QuarantineRotationStep(cfg, o, Step(DoQuarantineRotation, now));
    SoundKeeps(cfg, o, O.QuarantineRotation(cfg, o, now).0, Step(DoQuarantineRotation, now));
  }

  lemma SoundKeeps(cfg: T.Config, o: O.Outbox, o': O.Outbox, step: Step)
    requires Sound(cfg, o, o', step)
    ensures Inv(o')
  {
  }

  /** Only the journal's phase moves. */
  lemma AdvanceKeeps(o: O.Outbox, expected: T.Phase, following: T.Phase, now: Timestamp)
    requires Inv(o)
    ensures var o' := O.AdvanceRotation(o, expected, following, now).0;
            Inv(o') && o'.deliveries == o.deliveries && o'.quarantine == o.quarantine
  {
    var o' := O.AdvanceRotation(o, expected, following, now).0;
    assert forall k :: Has(o', k) == Has(o, k) && (Has(o, k) ==> At(o', k) == At(o, k));
  }

  lemma WriteKeepsUnderway(cfg: T.Config, w: World, oldId: string, newId: string, now: Timestamp)
    requires Underway(w, oldId, newId) && NextWrite(cfg, w, now).Write?
    ensures Underway(NextWrite(cfg, w, now).world, oldId, newId)
    ensures WritesLeft(NextWrite(cfg, w, now).world) < WritesLeft(w)
  {
    hide Inv, O.QuarantineRotation;
    QuarantinePreserves(cfg, w.outbox, now);
    WritesRunOut(cfg, w, now);
    match w.outbox.rotation.value.phase
    case Intent =>
      QuarantineAdvances(cfg, w.outbox, now);
    case OldBindingQuarantined => AdvanceKeeps(w.outbox, T.OldBindingQuarantined, T.StateRotated, now);
    case StateRotated => AdvanceKeeps(w.outbox, T.StateRotated, T.Completed, now);
    case Completed =>
  }

  lemma JournalUntouched(cfg: T.Config, o: O.Outbox, step: Step)
    requires !step.op.DoBeginRotation? && !step.op.DoQuarantineRotation? && !step.op.DoAdvanceRotation?
    ensures Next(cfg, o, step).rotation == o.rotation
  {
    hide O.MoveFits, O.Matches, O.Used, O.Count;
  }

  lemma ActKeepsUnderway(cfg: T.Config, w: World, act: Act, oldId: string, newId: string)
    requires Underway(w, oldId, newId) && Allowed(act)
    ensures Underway(Perform(cfg, w, act), oldId, newId)
  {
    hide Inv, NextWrite, Next, Unbound, WritesLeft;
    match act
    case NextOne(now) =>
      if NextWrite(cfg, w, now).Write? {
        WriteKeepsUnderway(cfg, w, oldId, newId, now);
      }
    case Elsewhere(step) =>
      StepSound(cfg, w.outbox, step);
      JournalUntouched(cfg, w.outbox, step);
  }

  lemma {:induction false} ActsKeepUnderway(cfg: T.Config, w: World, acts: seq<Act>, oldId: string, newId: string)
    requires Underway(w, oldId, newId) && AllAllowed(acts)
    ensures Underway(PerformAll(cfg, w, acts), oldId, newId)
    decreases |acts|
  {
    if acts != [] {
      var n := |acts| - 1;
      ActsKeepUnderway(cfg, w, acts[..n], oldId, newId);
      ActKeepsUnderway(cfg, PerformAll(cfg, w, acts[..n]), acts[n], oldId, newId);
    }
  }

  // Records of the old installation that come too late

  predicate BeforeQuarantine(w: World) {
    w.outbox.rotation.Some? && w.outbox.rotation.value.phase == T.Intent
  }

  predicate WaitsFrom(o: O.Outbox, k: Key, id: string) {
    k in o.deliveries && o.deliveries[k].event.installationId == id
  }

  /** Act i accepts a record of the old installation after the quarantine write. */
  ghost predicate AcceptedLate(cfg: T.Config, w: World, acts: seq<Act>, k: Key, oldId: string, i: nat) {
    && i < |acts| && acts[i].Elsewhere? && acts[i].step.op.DoEnqueue?
    && acts[i].step.op.input.event.deliveryId == k && acts[i].step.op.input.event.installationId == oldId
    && !BeforeQuarantine(PerformAll(cfg, w, acts[..i])) && !Has(PerformAll(cfg, w, acts[..i]).outbox, k)
    && k in PerformAll(cfg, w, acts[..i + 1]).outbox.deliveries
  }

  /** And no later act has deleted or moved it. */
  ghost predicate LateAndWaiting(cfg: T.Config, w: World, acts: seq<Act>, k: Key, oldId: string, i: nat) {
    && AcceptedLate(cfg, w, acts, k, oldId, i)
    && forall j | i < j <= |acts| :: k in PerformAll(cfg, w, acts[..j]).outbox.deliveries
  }

  ghost predicate CameLate(cfg: T.Config, w: World, acts: seq<Act>, k: Key, oldId: string) {
    exists i | 0 <= i < |acts| :: LateAndWaiting(cfg, w, acts, k, oldId, i)
  }

  lemma ActsPrefix(acts: seq<Act>, n: nat, j: nat)
    requires j <= n <= |acts|
    ensures acts[..n][..j] == acts[..j]
  {
  }

  /** Between two acts, a record of the old installation is waiting because it was or because it has just been accepted. */
  lemma WaitingStep(cfg: T.Config, w: World, act: Act, k: Key, oldId: string, newId: string)
    requires Underway(w, oldId, newId) && Allowed(act)
    ensures var w' := Perform(cfg, w, act);
            && (BeforeQuarantine(w') ==> BeforeQuarantine(w))
            && (BeforeQuarantine(w) && !BeforeQuarantine(w') ==> !WaitsFrom(w'.outbox, k, oldId))
            && (k in w'.outbox.deliveries && Has(w.outbox, k) ==>
                  k in w.outbox.deliveries && w'.outbox.deliveries[k].event == w.outbox.deliveries[k].event)
            && (k in w'.outbox.deliveries && !Has(w.outbox, k) ==>
                  act.Elsewhere? && act.step.op.DoEnqueue? && act.step.op.input.event == w'.outbox.deliveries[k].event
                  && act.step.op.input.event.deliveryId == k)
  {
    match act
    case NextOne(now) =>
      if NextWrite(cfg, w, now).Write? {
        WriteWaiting(cfg, w, now, k, oldId);
      }
    case Elsewhere(step) =>
      StepSound(cfg, w.outbox, step);
      JournalUntouched(cfg, w.outbox, step);
      hide Next, NextWrite;
      if Has(w.outbox, k) {
        assert Preserves(cfg, w.outbox, Next(cfg, w.outbox, step), step, k);
      } else if k in Next(cfg, w.outbox, step).deliveries {
        OutboxLaws.NewIsAccepted(cfg, w.outbox, step, k);
      }
  }

  lemma WriteWaiting(cfg: T.Config, w: World, now: Timestamp, k: Key, oldId: string)
    requires Inv(w.outbox) && w.outbox.rotation.Some? && NextWrite(cfg, w, now).Write?
    requires w.outbox.rotation.value.oldInstallationId == oldId
    ensures var w' := NextWrite(cfg, w, now).world;
            && !BeforeQuarantine(w')
            && (BeforeQuarantine(w) ==> !WaitsFrom(w'.outbox, k, oldId))
            && (k in w'.outbox.deliveries ==> k in w.outbox.deliveries && w'.outbox.deliveries[k] == w.outbox.deliveries[k])
            && (k in w.outbox.deliveries ==> Has(w'.outbox, k))
  {
    hide Inv, O.QuarantineRotation;
    match w.outbox.rotation.value.phase
    case Intent =>
      QuarantineAdvances(cfg, w.outbox, now);
      QuarantineLeavesNone(cfg, w.outbox, now);
      QuarantineMoves(cfg, w.outbox, now, k);
    case OldBindingQuarantined => AdvanceKeeps(w.outbox, T.OldBindingQuarantined, T.StateRotated, now);
    case StateRotated => AdvanceKeeps(w.outbox, T.StateRotated, T.Completed, now);
    case Completed =>
  }

  lemma QuarantineMoves(cfg: T.Config, o: O.Outbox, now: Timestamp, k: Key)
    ensures var o' := O.QuarantineRotation(cfg, o, now).0;
            k in o'.deliveries ==> k in o.deliveries && o'.deliveries[k] == o.deliveries[k]
  {
    hide O.MoveFits, O.Matches;
  }

  lemma LateEarlier(cfg: T.Config, w: World, acts: seq<Act>, k: Key, oldId: string, n: nat, i: nat)
    requires n <= |acts| && i < n
    ensures AcceptedLate(cfg, w, acts[..n], k, oldId, i) <==> AcceptedLate(cfg, w, acts, k, oldId, i)
  {
    hide PerformAll;
    ActsPrefix(acts, n, i);
    ActsPrefix(acts, n, i + 1);
  }

  lemma LateLonger(cfg: T.Config, w: World, acts: seq<Act>, k: Key, oldId: string)
    requires acts != []
    ensures CameLate(cfg, w, acts, k, oldId) <==>
            && k in PerformAll(cfg, w, acts).outbox.deliveries
            && (CameLate(cfg, w, acts[..|acts| - 1], k, oldId) || AcceptedLate(cfg, w, acts, k, oldId, |acts| - 1))
  {
    hide PerformAll, AcceptedLate;
    var n := |acts| - 1;
    assert acts[..|acts|] == acts;
    if CameLate(cfg, w, acts, k, oldId) {
      var i :| 0 <= i < |acts| && LateAndWaiting(cfg, w, acts, k, oldId, i);
      assert k in PerformAll(cfg, w, acts[..|acts|]).outbox.deliveries;
      if i < n {
        LateEarlier(cfg, w, acts, k, oldId, n, i);
        forall j | i < j <= n ensures k in PerformAll(cfg, w, acts[..n][..j]).outbox.deliveries {
          ActsPrefix(acts, n, j);
        }
        assert LateAndWaiting(cfg, w, acts[..n], k, oldId, i);
      }
    }
    if k in PerformAll(cfg, w, acts).outbox.deliveries && CameLate(cfg, w, acts[..n], k, oldId) {
      var i :| 0 <= i < n && LateAndWaiting(cfg, w, acts[..n], k, oldId, i);
      LateEarlier(cfg, w, acts, k, oldId, n, i);
      forall j | i < j <= |acts| ensures k in PerformAll(cfg, w, acts[..j]).outbox.deliveries {
        if j <= n {
          ActsPrefix(acts, n, j);
        }
      }
      assert LateAndWaiting(cfg, w, acts, k, oldId, i);
    }
    if k in PerformAll(cfg, w, acts).outbox.deliveries && AcceptedLate(cfg, w, acts, k, oldId, n) {
      assert LateAndWaiting(cfg, w, acts, k, oldId, n);
    }
  }

  /** Past the quarantine write, the records of the old installation that wait are exactly those that came late. */
  lemma {:induction false} WaitingIsLate(cfg: T.Config, w: World, acts: seq<Act>, k: Key, oldId: string, newId: string)
    requires Underway(w, oldId, newId) && BeforeQuarantine(w) && AllAllowed(acts)
    ensures var t := PerformAll(cfg, w, acts);
            !BeforeQuarantine(t) && WaitsFrom(t.outbox, k, oldId) <==> CameLate(cfg, w, acts, k, oldId)
    decreases |acts|
  {
    hide Underway, CameLate, Perform;
    if acts == [] {
      NothingLate(cfg, w, k, oldId);
    } else {
      var n := |acts| - 1;
      var before, t := PerformAll(cfg, w, acts[..n]), PerformAll(cfg, w, acts);
      WaitingIsLate(cfg, w, acts[..n], k, oldId, newId);
      ActsKeepUnderway(cfg, w, acts[..n], oldId, newId);
      WaitingStep(cfg, before, acts[n], k, oldId, newId);
      LateLonger(cfg, w, acts, k, oldId);
      LastAct(cfg, w, acts, k, oldId);
    }
  }

  lemma NothingLate(cfg: T.Config, w: World, k: Key, oldId: string)
    ensures !CameLate(cfg, w, [], k, oldId)
  {
  }

  lemma LastAct(cfg: T.Config, w: World, acts: seq<Act>, k: Key, oldId: string)
    requires acts != []
    ensures var n := |acts| - 1;
            var before, t := PerformAll(cfg, w, acts[..n]), PerformAll(cfg, w, acts);
            && t == Perform(cfg, before, acts[n])
            && (AcceptedLate(cfg, w, acts, k, oldId, n) <==>
                  && acts[n].Elsewhere? && acts[n].step.op.DoEnqueue?
                  && acts[n].step.op.input.event.deliveryId == k && acts[n].step.op.input.event.installationId == oldId
                  && !BeforeQuarantine(before) && !Has(before.outbox, k) && k in t.outbox.deliveries)
  {
    hide Perform;
    assert acts[..|acts|] == acts;
  }

  // Recovery

  /** The quarantine write: nothing of the old installation waits, everything else is as it was. */
  ghost predicate OldSetAside(o: O.Outbox, o': O.Outbox, oldId: string) {
    && NoneFrom(o', oldId)
    && (forall k | k in o.deliveries && o.deliveries[k].event.installationId != oldId :: k in o'.deliveries && o'.deliveries[k] == o.deliveries[k])
    && (forall k | k in o.deliveries && o.deliveries[k].event.installationId == oldId ::
          k in o'.quarantine && SameRecord(o.deliveries[k], o'.quarantine[k]))
    && (forall k | k in o.quarantine :: k in o'.quarantine && o'.quarantine[k] == o.quarantine[k])
  }

  ghost predicate Room(cfg: T.Config, w: World, now: Timestamp) {
    w.outbox.rotation.Some? && (w.outbox.rotation.value.phase == T.Intent ==> O.QuarantineRotation(cfg, w.outbox, now).1.Done?)
  }

  ghost predicate Settled(w: World, w': World, oldId: string, newId: string) {
    && Underway(w', oldId, newId) && w'.outbox.rotation.value.phase == T.Completed
    && w'.data.installationId == newId && Unbound(w'.data)
    && if BeforeQuarantine(w) then OldSetAside(w.outbox, w'.outbox, oldId)
       else w'.outbox.deliveries == w.outbox.deliveries && w'.outbox.quarantine == w.outbox.quarantine
  }

  lemma ResumeSettles(cfg: T.Config, w: World, oldId: string, newId: string, now: Timestamp)
    requires Underway(w, oldId, newId) && Room(cfg, w, now)
    ensures var (w', r) := Resume(cfg, w, now); r == Rotated(newId) && Settled(w, w', oldId, newId)
    decreases WritesLeft(w)
  {
    hide Inv, O.QuarantineRotation, Resume;
    if NextWrite(cfg, w, now).Write? {
      var w1 := NextWrite(cfg, w, now).world;
      WriteKeepsUnderway(cfg, w, oldId, newId, now);
      if w.outbox.rotation.value.phase == T.Intent {
        QuarantineAdvances(cfg, w.outbox, now);
        QuarantineLeavesNone(cfg, w.outbox, now);
      } else {
        AdvanceKeeps(w.outbox, T.OldBindingQuarantined, T.StateRotated, now);
        AdvanceKeeps(w.outbox, T.StateRotated, T.Completed, now);
      }
      ResumeSettles(cfg, w1, oldId, newId, now);
      ResumeAfter(cfg, w, w1, now);
    } else {
      ResumeEnds(cfg, w, now);
    }
  }

  /** Without a journal there is nothing to recover, and a completed one must name the identity that is stored. */
  lemma RecoversExactly(cfg: T.Config, w: World, now: Timestamp)
    requires Distinguishes(w.outbox) && (w.outbox.rotation.Some? ==> w.outbox.rotation.value.phase == T.Completed)
    ensures var (w', r) := Recovered(cfg, w, now);
            && w' == w
            && (r == NothingToDo <==> w.outbox.rotation.None?)
            && (w.outbox.rotation.Some? && w.data.installationId == w.outbox.rotation.value.newInstallationId ==> r == Rotated(w.data.installationId))
            && (w.outbox.rotation.Some? && w.data.installationId != w.outbox.rotation.value.newInstallationId ==> r == Refused(StateMismatch))
  {
  }

  /** A completed rotation is not touched again, whenever recovery runs. */
  lemma SecondRecoveryChangesNothing(cfg: T.Config, w: World, oldId: string, newId: string, now: Timestamp)
    requires Underway(w, oldId, newId) && w.outbox.rotation.value.phase == T.Completed
    ensures Recovered(cfg, w, now) == (w, Rotated(newId))
  {
  }

  /** Recovery with no room for the quarantine step refuses and changes nothing, so it can be tried again. */
  lemma RefusedRecoveryChangesNothing(cfg: T.Config, w: World, oldId: string, newId: string, now: Timestamp)
    requires Underway(w, oldId, newId)
    ensures !Room(cfg, w, now) <==> Recovered(cfg, w, now).1.Refused?
    ensures !Room(cfg, w, now) ==> Recovered(cfg, w, now).0 == w
  {
    hide O.QuarantineRotation, Resume, Inv, NoneFrom;
    if Room(cfg, w, now) {
      if Unfinished(w.outbox) {
        ResumeSettles(cfg, w, oldId, newId, now);
      }
    } else {
      ResumeEnds(cfg, w, now);
    }
  }

  /** The world in which a rotation has just been begun. */
  function Begun(w: World, newId: string, reason: string, now: Timestamp): World {
    w.(outbox := O.BeginRotation(w.outbox, w.data.installationId, newId, reason, now).0)
  }

  predicate CanBegin(w: World, newId: string) {
    !Unfinished(w.outbox) && w.data.installationId != "" && newId != "" && newId != w.data.installationId
  }

  /**
   Whatever writes were made before the crash, and whatever else the outbox did meanwhile, recovery ends the
   rotation under the identity it was begun with, and running it again changes nothing. A record of the old
   installation then waits exactly if it was accepted after the quarantine write and has stayed since.
   */
  lemma RecoveryFromAnyCrashPoint(cfg: T.Config, start: World, newId: string, reason: string, begun: Timestamp, acts: seq<Act>, now: Timestamp)
    requires Inv(start.outbox) && CanBegin(start, newId) && AllAllowed(acts)
    ensures var oldId := start.data.installationId;
            var w := Begun(start, newId, reason, begun);
            var crashed := PerformAll(cfg, w, acts);
            && Distinguishes(crashed.outbox)
            && var (final, r) := Recovered(cfg, crashed, now);
            if Room(cfg, crashed, now)
            then r == Rotated(newId) && Settled(crashed, final, oldId, newId)
                 && (forall later: Timestamp :: Recovered(cfg, final, later) == (final, r))
                 && (forall k :: WaitsFrom(final.outbox, k, oldId) <==> CameLate(cfg, w, acts, k, oldId))
            else r.Refused? && final == crashed
  {
    var oldId := start.data.installationId;
    var w := Begun(start, newId, reason, begun);
    BeginKeeps(start.outbox, oldId, newId, reason, begun);
    assert Underway(w, oldId, newId) && BeforeQuarantine(w);
    hide Inv, O.QuarantineRotation, Resume, NoneFrom, PerformAll, O.BeginRotation, Begun;
    ActsKeepUnderway(cfg, w, acts, oldId, newId);
    var crashed := PerformAll(cfg, w, acts);
    RefusedRecoveryChangesNothing(cfg, crashed, oldId, newId, now);
    if Room(cfg, crashed, now) {
      if Unfinished(crashed.outbox) {
        ResumeSettles(cfg, crashed, oldId, newId, now);
      } else {
        SettledAlready(crashed, oldId, newId);
      }
      var final := Recovered(cfg, crashed, now).0;
      forall later: Timestamp ensures Recovered(cfg, final, later) == Recovered(cfg, crashed, now) {
        SecondRecoveryChangesNothing(cfg, final, oldId, newId, later);
      }
      forall k ensures WaitsFrom(final.outbox, k, oldId) <==> CameLate(cfg, w, acts, k, oldId) {
        hide Settled, CameLate, Recovered, Room, Underway;
        WaitingIsLate(cfg, w, acts, k, oldId, newId);
        SettledWaiting(crashed, final, k, oldId, newId);
      }
    }
  }

  lemma SettledWaiting(w: World, w': World, k: Key, oldId: string, newId: string)
    requires Settled(w, w', oldId, newId)
    ensures WaitsFrom(w'.outbox, k, oldId) <==> !BeforeQuarantine(w) && WaitsFrom(w.outbox, k, oldId)
  {
  }

  lemma SettledAlready(w: World, oldId: string, newId: string)
    requires Underway(w, oldId, newId) && w.outbox.rotation.value.phase == T.Completed
    ensures Settled(w, w, oldId, newId)
  {
  }

  lemma BeginKeeps(o: O.Outbox, oldId: string, newId: string, reason: string, now: Timestamp)
    requires Inv(o) && !Unfinished(o) && oldId != "" && newId != "" && oldId != newId
    ensures var (o', reply) := O.BeginRotation(o, oldId, newId, reason, now);
            && reply.Done? && Inv(o') && o'.deliveries == o.deliveries && o'.quarantine == o.quarantine
            && o'.rotation == Some(T.InstallationRotation(oldId, newId, reason, T.Intent, now, now, 0))
  {
    var o' := O.BeginRotation(o, oldId, newId, reason, now).0;
    assert forall k :: Has(o', k) == Has(o, k) && (Has(o, k) ==> At(o', k) == At(o, k));
  }

  // What a late record does

  lemma NothingToQuarantine(cfg: T.Config, o: O.Outbox, now: Timestamp)
    requires o.deliveries == map[] && o.rotation.Some? && o.rotation.value.phase == T.Intent
    ensures O.QuarantineRotation(cfg, o, now).1.Done?
  {
    var keys := O.Matches(o, O.FromInstallation(o.rotation.value.oldInstallationId));
    assert |keys| == 0 by {
      if |keys| > 0 {
        OutboxLaws.NoFirst(keys);
      }
    }
  }

  /** Whenever a record of the old installation is accepted after the quarantine write, recovery leaves it waiting. */
  lemma LateRecordIsLeft(cfg: T.Config, w: World, oldId: string, newId: string, input: T.Delivery, accepted: Timestamp, crash: Timestamp, now: Timestamp)
    requires Underway(w, oldId, newId) && !BeforeQuarantine(w) && input.event.installationId == oldId
    requires O.Enqueue(cfg, w.outbox, input, None, None, accepted).1.Done?
    ensures var o := O.Reopen(cfg, O.Enqueue(cfg, w.outbox, input, None, None, accepted).0, crash);
            var (final, r) := Recovered(cfg, w.(outbox := o), now);
            r == Rotated(newId) && WaitsFrom(final.outbox, input.event.deliveryId, oldId)
  {
    var id := input.event.deliveryId;
    var enqueued := w.(outbox := O.Enqueue(cfg, w.outbox, input, None, None, accepted).0);
    var crashed := enqueued.(outbox := O.Reopen(cfg, enqueued.outbox, crash));
    var accepting, reopening := Elsewhere(Step(DoEnqueue(input, None, None), accepted)), Elsewhere(Step(Crash, crash));
    hide Inv, Perform, Resume, O.Enqueue, O.Reopen, NextWrite, Next, Unbound;
    EnqueuedWaits(cfg, w.outbox, input, accepted);
    ReopenedWaits(cfg, enqueued.outbox, crash, id);
    NextIs(cfg, w.outbox, enqueued.outbox, input, accepted, crash);
    PerformElsewhere(cfg, w, accepting.step);
    PerformElsewhere(cfg, enqueued, reopening.step);
    ActKeepsUnderway(cfg, w, accepting, oldId, newId);
    ActKeepsUnderway(cfg, enqueued, reopening, oldId, newId);
    JournalUntouched(cfg, w.outbox, accepting.step);
    JournalUntouched(cfg, enqueued.outbox, reopening.step);
    LateWaits(cfg, crashed, id, oldId, newId, now);
  }

  lemma PerformElsewhere(cfg: T.Config, w: World, step: Step)
    ensures Perform(cfg, w, Elsewhere(step)) == w.(outbox := Next(cfg, w.outbox, step))
  {
    hide Next;
  }

  /** Recovery after the quarantine write leaves what waits waiting. */
  lemma LateWaits(cfg: T.Config, w: World, k: Key, oldId: string, newId: string, now: Timestamp)
    requires Underway(w, oldId, newId) && !BeforeQuarantine(w) && WaitsFrom(w.outbox, k, oldId)
    ensures var (final, r) := Recovered(cfg, w, now); r == Rotated(newId) && WaitsFrom(final.outbox, k, oldId)
  {
    hide Inv, Resume, Unbound;
    if Unfinished(w.outbox) {
      ResumeSettles(cfg, w, oldId, newId, now);
    }
  }

  lemma NextIs(cfg: T.Config, o: O.Outbox, enqueued: O.Outbox, input: T.Delivery, accepted: Timestamp, crash: Timestamp)
    ensures Next(cfg, o, Step(DoEnqueue(input, None, None), accepted)) == O.Enqueue(cfg, o, input, None, None, accepted).0
    ensures Next(cfg, enqueued, Step(Crash, crash)) == O.Reopen(cfg, enqueued, crash)
  {
  }

  lemma EnqueuedWaits(cfg: T.Config, o: O.Outbox, input: T.Delivery, now: Timestamp)
    requires O.Enqueue(cfg, o, input, None, None, now).1.Done?
    ensures WaitsFrom(O.Enqueue(cfg, o, input, None, None, now).0, input.event.deliveryId, input.event.installationId)
  {
    hide O.Used, O.Count;
  }

  lemma ReopenedWaits(cfg: T.Config, o: O.Outbox, now: Timestamp, k: Key)
    requires k in o.deliveries
    ensures var o' := O.Reopen(cfg, o, now); k in o'.deliveries && o'.deliveries[k].event == o.deliveries[k].event
  {
  }

  const LATE := T.Delivery(T.Event([1], [1], "", "", "", "", "old", 0, 0, ""), T.Pending, 0, 0, 0, 0,
                           T.AttemptFailure(0, T.Text(""), T.Text(""), ""), None, T.Text(""))

  /** Such a crash point exists: the first two writes of a rotation, one record of the old installation, a crash. */
  lemma LateRecordCanBeLeft(now: Timestamp) returns (cfg: T.Config, start: World, acts: seq<Act>)
    ensures Inv(start.outbox) && CanBegin(start, "new") && start.data.installationId == "old" && AllAllowed(acts)
    ensures var crashed := PerformAll(cfg, Begun(start, "new", "", now), acts);
            && Distinguishes(crashed.outbox)
            && var (final, r) := Recovered(cfg, crashed, now);
            r == Rotated("new") && WaitsFrom(final.outbox, LATE.event.deliveryId, "old")
  {
    cfg := T.Config(1, 0, 0, (d: T.Delivery) => 0);
    start := World(O.EMPTY, Data("old", false, now, Unpaired, "", "", None, 0, None, "", "", "", 0, now));
    FreshStart(start.outbox);
    hide *;
    acts := LateActs(now);
    var w := FirstWrite(cfg, start, now);
    LateActsMake(cfg, Begun(start, "new", "", now), w, now);
    LateRecordIsLeft(cfg, w, "old", "new", LATE, now, now, now);
  }

  function LateActs(now: Timestamp): (acts: seq<Act>)
    ensures AllAllowed(acts)
  {
    [NextOne(now), Elsewhere(Step(DoEnqueue(LATE, None, None), now)), Elsewhere(Step(Crash, now))]
  }

  lemma FreshStart(o: O.Outbox)
    requires o == O.EMPTY
    ensures Inv(o) && !Unfinished(o)
  {
  }

  lemma LateActsMake(cfg: T.Config, b: World, w: World, now: Timestamp)
    requires w == Perform(cfg, b, NextOne(now))
    ensures PerformAll(cfg, b, LateActs(now)) == w.(outbox := O.Reopen(cfg, O.Enqueue(cfg, w.outbox, LATE, None, None, now).0, now))
  {
    var acts := LateActs(now);
    var enqueued := O.Enqueue(cfg, w.outbox, LATE, None, None, now).0;
    hide O.Enqueue, O.Reopen, Next, NextWrite, PerformAll;
    NextIs(cfg, w.outbox, enqueued, LATE, now, now);
    ThreeActs(cfg, b, acts[0], acts[1], acts[2]);
  }

  lemma FirstWrite(cfg: T.Config, start: World, now: Timestamp) returns (w: World)
    requires cfg.maxEvents >= 1 && forall d :: cfg.size(d) == 0
    requires start.outbox == O.EMPTY && start.data.installationId == "old"
    ensures w == Perform(cfg, Begun(start, "new", "", now), NextOne(now))
    ensures Underway(w, "old", "new") && !BeforeQuarantine(w) && O.Enqueue(cfg, w.outbox, LATE, None, None, now).1.Done?
  {
    var b := Begun(start, "new", "", now);
    BeginKeeps(start.outbox, "old", "new", "", now);
    NothingToQuarantine(cfg, b.outbox, now);
    QuarantineAdvances(cfg, b.outbox, now);
    w := Perform(cfg, b, NextOne(now));
    assert Underway(b, "old", "new");
    QuarantineKeepsCounts(cfg, b.outbox, now);
    NothingUsed(cfg, w.outbox);
    hide O.QuarantineRotation, O.Used;
    WriteKeepsUnderway(cfg, b, "old", "new", now);
  }

  lemma NothingUsed(cfg: T.Config, o: O.Outbox)
    requires o.deliveries == map[] && o.quarantine == map[]
    ensures O.Used(cfg, o) == 0 && O.Count(o) == 0
  {
  }

  lemma ThreeActs(cfg: T.Config, w: World, a: Act, b: Act, c: Act)
    ensures PerformAll(cfg, w, [a, b, c]) == Perform(cfg, Perform(cfg, Perform(cfg, w, a), b), c)
  {
    hide Perform;
    assert [a, b, c][..2] == [a, b] && [a, b][..1] == [a];
    OneAct(cfg, w, a);
    assert PerformAll(cfg, w, [a, b]) == Perform(cfg, PerformAll(cfg, w, [a, b][..1]), b);
    assert PerformAll(cfg, w, [a, b, c]) == Perform(cfg, PerformAll(cfg, w, [a, b, c][..2]), c);
  }

  lemma OneAct(cfg: T.Config, w: World, act: Act)
    ensures PerformAll(cfg, w, [act]) == Perform(cfg, w, act)
  {
    hide Perform;
    assert [act][..0] == [];
    assert PerformAll(cfg, w, [act][..0]) == w;
  }

  lemma QuarantineKeepsCounts(cfg: T.Config, o: O.Outbox, now: Timestamp)
    requires o.deliveries == map[] && o.quarantine == map[]
    ensures var o' := O.QuarantineRotation(cfg, o, now).0; o'.deliveries == map[] && o'.quarantine == map[]
  {
    hide O.MoveFits, O.Matches;
    var o' := O.QuarantineRotation(cfg, o, now).0;
    assert forall k :: k !in o'.deliveries && k !in o'.quarantine;
  }

  /** The next reconciliation under a binding of another installation sets every such record aside. */
  lemma ReconcilingSetsLateAside(cfg: T.Config, o: O.Outbox, b: T.Binding, oldId: string, now: Timestamp)
    requires Inv(o) && b.installationId != oldId && O.Reconcile(cfg, o, b, now).1.Done?
    ensures var o' := O.Reconcile(cfg, o, b, now).0;
            && NoneFrom(o', oldId)
            && forall k | WaitsFrom(o, k, oldId) :: k in o'.quarantine
  {
    hide Inv, O.Reconcile;
    OutboxLaws.ReconcileAgrees(cfg, o, b, now);
  }
}

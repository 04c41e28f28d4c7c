/** What code submissions, lifecycle changes and replies achieve, in terms of the receiver's record. */
module PairingEffects {
  import opened Common
  import T = OutboxTypes
  import O = Outbox
  import OutboxInvariant
  import opened ReceiverState
  import opened InstallationRotation
  import R = RotationLaws
  import opened Pairing
  import L = PairingLaws

  /** Nothing of an earlier pairing is left in the record. */
  predicate Blank(d: Data) {
    && !d.bound && d.ownerId == "" && d.receiverId == "" && d.apiKey == "" && d.clockSamples == 0
    && d.pairingCode == "" && d.activationToken == "" && d.activationExpires.None? && d.retryCount == 0 && d.nextRetryAt.None?
    && d.phase.Unpaired?
  }

  predicate PastQuarantine(w: World) {
    Unfinished(w.outbox) && !R.BeforeQuarantine(w)
  }

  /** A consistent world in which a bound receiver gives up its identity. */
  ghost predicate CanGiveUp(w: World, activated: seq<string>, seen: set<string>, newId: string) {
    L.Consistent(w, activated, seen) && OutboxInvariant.Inv(w.outbox) && w.data.bound && !L.InGap(w) && newId != "" && newId !in seen
  }

  /** The identity is another one, nothing of the pairing is left, and no record of the old identity waits. */
  ghost predicate GivenUpIdentity(w: World, w': World) {
    && w'.data.installationId != w.data.installationId && Blank(w'.data)
    && if PastQuarantine(w) then w'.outbox.deliveries == w.outbox.deliveries else R.OldSetAside(w.outbox, w'.outbox, w.data.installationId)
  }

  lemma ResumeGivesUp(cfg: T.Config, w: World, oldId: string, newId: string, now: Timestamp)
    requires R.Underway(w, oldId, newId) && w.data.bound && w.data.installationId == oldId && Unfinished(w.outbox)
    ensures var (w', r) := Resume(cfg, w, now);
            && (!r.Refused? ==> GivenUpIdentity(w, w')) && (r.Refused? ==> w' == w)
    decreases WritesLeft(w)
  {
    hide Resume, R.OldSetAside, O.QuarantineRotation;
    if R.Room(cfg, w, now) {
      R.ResumeSettles(cfg, w, oldId, newId, now);
      ResumeBlanks(cfg, w, oldId, newId, now);
    } else {
      ResumeEnds(cfg, w, now);
    }
  }

  /** The renewing write leaves nothing of the pairing, and no later write changes the record. */
  lemma ResumeBlanks(cfg: T.Config, w: World, oldId: string, newId: string, now: Timestamp)
    requires R.Underway(w, oldId, newId) && Unfinished(w.outbox)
    requires (w.data.installationId == oldId && w.outbox.rotation.value.phase != T.StateRotated) || Blank(w.data)
    ensures var (w', r) := Resume(cfg, w, now); !r.Refused? ==> Blank(w'.data)
    decreases WritesLeft(w)
  {
    hide Resume, O.QuarantineRotation;
    if NextWrite(cfg, w, now).Write? {
      var n := NextWrite(cfg, w, now).world;
      R.WriteKeepsUnderway(cfg, w, oldId, newId, now);
      ResumeAfter(cfg, w, n, now);
      if w.outbox.rotation.value.phase == T.Intent {
        QuarantineAdvances(cfg, w.outbox, now);
      }
      if Unfinished(n.outbox) {
        ResumeBlanks(cfg, n, oldId, newId, now);
      } else {
        ResumeEnds(cfg, n, now);
      }
    } else {
      ResumeEnds(cfg, w, now);
    }
  }

  /** The record a rotation writes is a new installation of the time the journal was begun. */
  lemma RenewsExactly(d: Data, journal: T.InstallationRotation, now: Timestamp)
    ensures var r := Renewed(d, journal, now);
            Blank(r) && r.installationId == journal.newInstallationId && r.createdAt == journal.startedAt && r.updatedAt == now
  {
  }

  /** A receiver without an identity has none to give up. */
  lemma NoIdentityIsRefused(cfg: T.Config, w: World, newId: string, reason: string, now: Timestamp)
    requires !Unfinished(w.outbox) && w.data.installationId == ""
    ensures Distinguishes(w.outbox) ==> RotatedBy(cfg, w, newId, reason, now) == (w, Refused(MissingIdentity))
  {
  }

  lemma RotatedByGivesUp(cfg: T.Config, w: World, newId: string, reason: string, now: Timestamp, activated: seq<string>, seen: set<string>)
    requires CanGiveUp(w, activated, seen, newId)
    ensures var (w', r) := RotatedBy(cfg, w, newId, reason, now);
            && (!r.Refused? ==> GivenUpIdentity(w, w')) && (r.Refused? ==> w'.data == w.data)
  {
    hide Resume, R.OldSetAside, OutboxInvariant.Inv;
    if Unfinished(w.outbox) {
      var journal := w.outbox.rotation.value;
      if w.data.installationId == journal.oldInstallationId {
        ResumeGivesUp(cfg, w, journal.oldInstallationId, journal.newInstallationId, now);
      } else {
        ResumeEnds(cfg, w, now);
      }
    } else {
      R.BeginKeeps(w.outbox, w.data.installationId, newId, reason, now);
      var b := R.Begun(w, newId, reason, now);
      ResumeGivesUp(cfg, b, w.data.installationId, newId, now);
      SameBuckets(w.outbox, b.outbox, w.data.installationId);
      hide O.BeginRotation;
      if !RotatedBy(cfg, w, newId, reason, now).1.Refused? {
        FromBegun(w, b, RotatedBy(cfg, w, newId, reason, now).0);
      }
    }
  }

  lemma SameBuckets(o: O.Outbox, b: O.Outbox, oldId: string)
    requires o.deliveries == b.deliveries && o.quarantine == b.quarantine
    ensures forall o' :: R.OldSetAside(b, o', oldId) ==> R.OldSetAside(o, o', oldId)
  {
  }

  lemma FromBegun(w: World, b: World, w': World)
    requires b.data == w.data && R.BeforeQuarantine(b) && Unfinished(b.outbox) && !Unfinished(w.outbox) && GivenUpIdentity(b, w')
    requires R.OldSetAside(b.outbox, w'.outbox, w.data.installationId) ==> R.OldSetAside(w.outbox, w'.outbox, w.data.installationId)
    ensures GivenUpIdentity(w, w')
  {
    hide R.OldSetAside;
  }

  /**
   A bound receiver that is replaced or deauthorised gives up its identity with everything it paired and delivered under
   it; any other change, and any change to an unbound receiver, leaves identity, binding and outbox as they are.
   */
  lemma ChangesExactly(cfg: T.Config, w: World, change: LifecycleChange, reason: string, clearDurable: bool, newId: string, now: Timestamp, activated: seq<string>, seen: set<string>)
    requires Distinguishes(w.outbox)
    ensures var (w', r) := Changed(cfg, w, change, reason, clearDurable, newId, now);
            var gives := w.data.bound && (change == ReceiverReplaced || change == LocalDeauthorized);
            && (CanGiveUp(w, activated, seen, newId) && gives && r.Done? ==> GivenUpIdentity(w, w'))
            && (CanGiveUp(w, activated, seen, newId) && gives && !r.Done? ==> r.RotationFailed? && w'.data == w.data)
            && (!gives ==> r.Done? && w'.outbox == w.outbox && w'.data.installationId == w.data.installationId && w'.data.bound == w.data.bound)
            && (r.Done? ==> w'.data.phase.Unpaired? && w'.data.pairingCode == "" && w'.data.activationToken == ""
                            && w'.data.activationExpires.None? && w'.data.retryCount == 0 && w'.data.nextRetryAt.None?)
            && (r.Done? && clearDurable ==> w'.data.updatedAt == now)
            && (r.Done? && clearDurable ==> w'.data.ownerId == "" && w'.data.receiverId == "" && w'.data.apiKey == "" && w'.data.clockSamples == 0)
            && (!gives && !clearDurable ==> w'.data.ownerId == w.data.ownerId && w'.data.receiverId == w.data.receiverId && w'.data.apiKey == w.data.apiKey)
  {
    hide RotatedBy, R.OldSetAside;
    if CanGiveUp(w, activated, seen, newId) {
      RotatedByGivesUp(cfg, w, newId, reason, now, activated, seen);
    }
    hide CanGiveUp;
  }

  /** A code is taken under a new identity by a bound receiver and under the same one by an unbound receiver. */
  lemma SubmitsExactly(cfg: T.Config, w: World, code: string, newId: string, now: Timestamp, activated: seq<string>, seen: set<string>)
    requires Distinguishes(w.outbox)
    ensures var (w', r) := Submitted(cfg, w, code, newId, now);
            && (|code| < 8 <==> r.CodeTooShort?) && (|code| < 8 ==> w' == w)
            && (r.Accepted? ==> w'.data.phase.CodeEntered? && w'.data.pairingCode == code && w'.data.activationToken == ""
                                && w'.data.activationExpires.None? && w'.data.retryCount == 0 && w'.data.nextRetryAt.None?)
            && (|code| >= 8 && !w.data.bound ==>
                  r.Accepted? && w'.outbox == w.outbox && w'.data.installationId == w.data.installationId && !w'.data.bound)
            && (CanGiveUp(w, activated, seen, newId) && r.Accepted? ==>
                  && w'.data.installationId != w.data.installationId && !w'.data.bound && w'.data.ownerId == "" && w'.data.apiKey == ""
                  && (!PastQuarantine(w) ==> R.NoneFrom(w'.outbox, w.data.installationId)))
            && (CanGiveUp(w, activated, seen, newId) && |code| >= 8 && !r.Accepted? ==> w'.data == w.data)
  {
    hide RotatedBy, R.NoneFrom;
    if CanGiveUp(w, activated, seen, newId) {
      RotatedByGivesUp(cfg, w, newId, "re_pair", now, activated, seen);
    }
    hide CanGiveUp;
  }

  // The pairing loop

  /** When a request is sent and which. */
  lemma AsksExactly(d: Data, connected: bool, now: Timestamp)
    ensures var (d', call, r) := Asked(d, connected, now);
            var ready := connected && (d.nextRetryAt.Some? ==> now >= d.nextRetryAt.value);
            var expired := d.activationExpires.Some? && now > d.activationExpires.value;
            && (call.Some? <==>
                  || (d.phase.CodeEntered? && ready && d.pairingCode != "")
                  || (d.phase.BootstrapExchanged? && ready && d.activationToken != "" && !expired))
            && (call.Some? && d.phase.CodeEntered? ==> call.value == Exchange(d.pairingCode, d.retryCount))
            && (call.Some? && d.phase.BootstrapExchanged? ==> call.value == Activate(d.installationId, d.activationToken, d.retryCount))
            && (d' != d ==> d'.phase.SteadyState? || (d.phase.BootstrapExchanged? && expired && d'.phase.Unpaired? && d'.activationToken == ""))
            && (d.phase.Activated? && d.apiKey != "" <==> d'.phase.SteadyState? && !d.phase.SteadyState?)
            && (d.phase.BootstrapExchanged? && ready && d.activationToken != "" && expired ==> d'.phase.Unpaired?)
            && (r.BadPhase? <==> d.phase.UnknownPhase?)
            && d'.bound == d.bound && d'.installationId == d.installationId && d'.apiKey == d.apiKey
  {
  }

  /** What each reply does to the record. */
  lemma AnswersExactly(d: Data, call: Call, reply: Reply, now: Timestamp)
    requires Answers(call, reply)
    ensures var d' := Answered(d, call, reply, now);
            && d'.installationId == d.installationId
            && (d'.bound <==> d.bound || reply.ActivatedAs?)
            && (!reply.CallFailed? ==> d'.updatedAt == now)
            && (!(reply.CallFailed? && reply.retryable) ==> d'.retryCount == 0)
            && (!reply.Exchanged? && !(reply.CallFailed? && reply.retryable) ==> d'.activationExpires.None?)
            && match reply
               case Exchanged(token, expires) =>
                 d'.phase.BootstrapExchanged? && d'.activationToken == token && d'.activationExpires == Some(expires)
                 && d'.nextRetryAt.None? && d'.ownerId == d.ownerId && d'.apiKey == d.apiKey
               case ActivatedAs(ownerId, receiverId, apiKey) =>
                 d'.phase.Activated? && d'.ownerId == ownerId && d'.receiverId == receiverId && d'.apiKey == apiKey
                 && d'.pairingCode == "" && d'.activationToken == "" && d'.nextRetryAt.None?
               case CallFailed(retryable) =>
                 && d'.ownerId == d.ownerId && d'.receiverId == d.receiverId && d'.apiKey == d.apiKey
                 && if retryable then
                      && d'.phase == (if call.Exchange? then CodeEntered else BootstrapExchanged)
                      && d'.retryCount == call.retryCount + 1 && d'.pairingCode == d.pairingCode && d'.activationToken == d.activationToken
                      && d'.nextRetryAt.Some? && now + 4 * SECOND <= d'.nextRetryAt.value <= now + 120 * SECOND
                    else d'.phase.Unpaired? && d'.pairingCode == "" && d'.activationToken == "" && d'.nextRetryAt.None?
  {
  }
}

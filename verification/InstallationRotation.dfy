/** Installation rotation: a four-phase journal in the outbox driving an update of the receiver state. */
module InstallationRotation {
  import opened Common
  import T = OutboxTypes
  import O = Outbox
  import opened OutboxStore
  import opened ReceiverState
  import opened StoreAgreement

  datatype World = World(outbox: O.Outbox, data: Data)

  datatype Refusal = MissingIdentity | Transaction(error: T.Error) | StillBound | UnknownIdentity | StateMismatch

  datatype Result = NothingToDo | Rotated(id: string) | Refused(why: Refusal)

  function Renewed(d: Data, journal: T.InstallationRotation, now: Timestamp): Data {
    d.(installationId := journal.newInstallationId, bound := false, createdAt := journal.startedAt,
       phase := Unpaired, pairingCode := "", activationToken := "", activationExpires := None,
       retryCount := 0, nextRetryAt := None,
       ownerId := "", receiverId := "", apiKey := "", clockSamples := 0, updatedAt := now)
  }

  /** No trace of a cloud binding. */
  predicate Unbound(d: Data) {
    !d.bound && d.ownerId == "" && d.receiverId == "" && d.apiKey == "" && d.clockSamples == 0
  }

  // One durable write at a time

  datatype Progress = Write(world: World) | Finished(id: string) | Stuck(why: Refusal)

  ghost function NextWrite(cfg: T.Config, w: World, now: Timestamp): Progress
    requires w.outbox.rotation.Some?
  {
    var journal := w.outbox.rotation.value;
    match journal.phase
    case Intent =>
      var r := O.QuarantineRotation(cfg, w.outbox, now);
      if r.1.Failed? then Stuck(Transaction(r.1.error)) else Write(w.(outbox := r.0))
    case OldBindingQuarantined =>
      if w.data.installationId == journal.oldInstallationId then Write(w.(data := Renewed(w.data, journal, now)))
      else if w.data.installationId != journal.newInstallationId then Stuck(UnknownIdentity)
      else if !Unbound(w.data) then Stuck(StillBound)
      else Write(w.(outbox := O.AdvanceRotation(w.outbox, T.OldBindingQuarantined, T.StateRotated, now).0))
    case StateRotated => Write(w.(outbox := O.AdvanceRotation(w.outbox, T.StateRotated, T.Completed, now).0))
    case Completed => Finished(journal.newInstallationId)
  }

  ghost function WritesLeft(w: World): nat {
    if w.outbox.rotation.None? then 0 else
      match w.outbox.rotation.value.phase
      case Intent => 4
      case OldBindingQuarantined => if w.data.installationId == w.outbox.rotation.value.oldInstallationId then 3 else 2
      case StateRotated => 1
      case Completed => 0
  }

  lemma WritesRunOut(cfg: T.Config, w: World, now: Timestamp)
    requires w.outbox.rotation.Some? && NextWrite(cfg, w, now).Write?
    requires w.outbox.rotation.value.oldInstallationId != w.outbox.rotation.value.newInstallationId
    ensures var w' := NextWrite(cfg, w, now).world;
            && WritesLeft(w') < WritesLeft(w)
            && w'.outbox.rotation.Some?
            && w'.outbox.rotation.value.oldInstallationId == w.outbox.rotation.value.oldInstallationId
            && w'.outbox.rotation.value.newInstallationId == w.outbox.rotation.value.newInstallationId
  {
    hide O.MoveFits, O.Matches, O.Moved;
  }

  /** Writing until the journal is completed or something refuses. */
  ghost function Resume(cfg: T.Config, w: World, now: Timestamp): (World, Result)
    requires w.outbox.rotation.Some? && w.outbox.rotation.value.oldInstallationId != w.outbox.rotation.value.newInstallationId
    decreases WritesLeft(w)
  {
    match NextWrite(cfg, w, now)
    case Finished(id) => (w, Rotated(id))
    case Stuck(why) => (w, Refused(why))
    case Write(w') =>
      WritesRunOut(cfg, w, now);
      Resume(cfg, w', now)
  }

  predicate Distinguishes(o: O.Outbox) {
    o.rotation.Some? ==> o.rotation.value.oldInstallationId != o.rotation.value.newInstallationId
  }

  predicate Unfinished(o: O.Outbox) {
    o.rotation.Some? && o.rotation.value.phase != T.Completed
  }

  ghost function Recovered(cfg: T.Config, w: World, now: Timestamp): (World, Result)
    requires Distinguishes(w.outbox)
  {
    if w.outbox.rotation.None? then (w, NothingToDo)
    else if !Unfinished(w.outbox) then
      (w, if w.data.installationId != w.outbox.rotation.value.newInstallationId then Refused(StateMismatch)
          else Rotated(w.outbox.rotation.value.newInstallationId))
    else Resume(cfg, w, now)
  }

  ghost function RotatedBy(cfg: T.Config, w: World, newId: string, reason: string, now: Timestamp): (World, Result)
    requires Distinguishes(w.outbox)
  {
    if Unfinished(w.outbox) then Resume(cfg, w, now)
    else if w.data.installationId == "" then (w, Refused(MissingIdentity))
    else
      var begun := O.BeginRotation(w.outbox, w.data.installationId, newId, reason, now);
      if begun.1.Failed? then (w, Refused(Transaction(begun.1.error)))
      else Resume(cfg, w.(outbox := begun.0), now)
  }

  class Rotator {
    const outbox: Store
    const state: StateStore

    constructor (outbox: Store, state: StateStore)
      ensures this.outbox == outbox && this.state == state
    {
      this.outbox := outbox;
      this.state := state;
    }

    ghost function Both(): World
      reads this, outbox, state
    {
      World(outbox.View(), state.data)
    }

    method Recover(now: Timestamp) returns (r: Result)
      requires outbox.Valid() && Distinguishes(outbox.View())
      modifies outbox, state
      ensures outbox.Valid() && Distinguishes(outbox.View())
      ensures (Both(), r) == Recovered(outbox.cfg, old(Both()), now)
    {
      hide Resume, Agrees;
      if outbox.rotation.None? {
        return NothingToDo;
      }
      var journal := outbox.rotation.value;
      if journal.phase == T.Completed {
        if state.data.installationId != journal.newInstallationId {
          return Refused(StateMismatch);
        }
        return Rotated(journal.newInstallationId);
      }
      r := Continue(now);
    }

    method RotateInstallation(newId: string, reason: string, now: Timestamp) returns (r: Result)
      requires outbox.Valid() && Distinguishes(outbox.View())
      modifies outbox, state
      ensures outbox.Valid() && Distinguishes(outbox.View())
      ensures (Both(), r) == RotatedBy(outbox.cfg, old(Both()), newId, reason, now)
    {
      hide Resume, Agrees;
      if outbox.rotation.None? || outbox.rotation.value.phase == T.Completed {
        var oldId := state.data.installationId;
        if oldId == "" {
          return Refused(MissingIdentity);
        }
        var begun := outbox.BeginInstallationRotation(oldId, newId, reason, now);
        if begun.Failed? {
          return Refused(Transaction(begun.error));
        }
      }
      r := Continue(now);
    }

    /** Falls through the phases that are still open, one write after the other. */
    method Continue(now: Timestamp) returns (r: Result)
      requires outbox.Valid() && Distinguishes(outbox.View()) && outbox.rotation.Some?
      modifies outbox, state
      ensures outbox.Valid() && Distinguishes(outbox.View())
      ensures (Both(), r) == Resume(outbox.cfg, old(Both()), now)
    {
      hide Agrees, Resume, O.QuarantineRotation;
      ghost var w := Both();
      var journal := outbox.rotation.value;
      if journal.phase == T.Intent {
        var done := outbox.QuarantineInstallationRotation(now);
        if done.Failed? {
          QuarantineRefused(outbox.cfg, w.outbox, now);
          ResumeEnds(outbox.cfg, w, now);
          return Refused(Transaction(done.error));
        }
        QuarantineAdvances(outbox.cfg, w.outbox, now);
        ResumeAfter(outbox.cfg, w, Both(), now);
        w := Both();
      }
      if outbox.rotation.value.phase == T.OldBindingQuarantined {
        var current := state.data;
        if current.installationId == journal.oldInstallationId {
          state.data := Renewed(current, outbox.rotation.value, now);
          ResumeAfter(outbox.cfg, w, Both(), now);
          w := Both();
        } else if current.installationId != journal.newInstallationId {
          ResumeEnds(outbox.cfg, w, now);
          return Refused(UnknownIdentity);
        } else if !Unbound(current) {
          ResumeEnds(outbox.cfg, w, now);
          return Refused(StillBound);
        }
        var advanced := outbox.AdvanceInstallationRotation(T.OldBindingQuarantined, T.StateRotated, now);
        ResumeAfter(outbox.cfg, w, Both(), now);
        w := Both();
      }
      if outbox.rotation.value.phase == T.StateRotated {
        var advanced := outbox.AdvanceInstallationRotation(T.StateRotated, T.Completed, now);
        ResumeAfter(outbox.cfg, w, Both(), now);
        w := Both();
      }
      ResumeEnds(outbox.cfg, w, now);
      r := Rotated(outbox.rotation.value.newInstallationId);
    }
  }

  lemma ResumeAfter(cfg: T.Config, w: World, w': World, now: Timestamp)
    requires w.outbox.rotation.Some? && w'.outbox.rotation.Some? && Distinguishes(w.outbox) && Distinguishes(w'.outbox)
    requires NextWrite(cfg, w, now) == Write(w')
    ensures Resume(cfg, w, now) == Resume(cfg, w', now)
  {
    hide NextWrite;
    WritesRunOut(cfg, w, now);
  }

  lemma ResumeEnds(cfg: T.Config, w: World, now: Timestamp)
    requires w.outbox.rotation.Some? && Distinguishes(w.outbox)
    ensures NextWrite(cfg, w, now).Finished? ==> Resume(cfg, w, now) == (w, Rotated(NextWrite(cfg, w, now).id))
    ensures NextWrite(cfg, w, now).Stuck? ==> Resume(cfg, w, now) == (w, Refused(NextWrite(cfg, w, now).why))
  {
    hide NextWrite;
  }

  lemma QuarantineRefused(cfg: T.Config, o: O.Outbox, now: Timestamp)
    ensures O.QuarantineRotation(cfg, o, now).1.Failed? ==> O.QuarantineRotation(cfg, o, now).0 == o
  {
    hide O.MoveFits, O.Matches;
  }

  lemma QuarantineAdvances(cfg: T.Config, o: O.Outbox, now: Timestamp)
    requires o.rotation.Some? && o.rotation.value.phase == T.Intent && O.QuarantineRotation(cfg, o, now).1.Done?
    ensures var o' := O.QuarantineRotation(cfg, o, now).0;
            o'.rotation.Some? && o'.rotation.value.phase == T.OldBindingQuarantined
            && o'.rotation.value.oldInstallationId == o.rotation.value.oldInstallationId
            && o'.rotation.value.newInstallationId == o.rotation.value.newInstallationId
  {
    hide O.MoveFits, O.Matches;
  }
}

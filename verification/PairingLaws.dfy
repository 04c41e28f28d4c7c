/** Pairing, rotation, crashes and the outbox together: one identity is activated at most once. */
module PairingLaws {
  import opened Common
  import T = OutboxTypes
  import O = Outbox
  import opened OutboxRuns
  import opened ReceiverState
  import opened InstallationRotation
  import R = RotationLaws
  import opened Pairing

  /** The durable world, the request the pairing loop is waiting on, and what happened so far. */
  datatype System = System(world: World, asked: Option<Call>, activated: seq<string>, seen: set<string>)

  datatype Event =
    | Submit(code: string, newId: string, now: Timestamp)
    | Lifecycle(change: LifecycleChange, reason: string, clearDurable: bool, newId: string, now: Timestamp)
    | BrokenRotation(newId: string, reason: string, writes: nat, now: Timestamp)
    | Ask(connected: bool, now: Timestamp)
    | Answer(reply: Reply, now: Timestamp)
    | Elsewhere(step: Step)
    | Restart(now: Timestamp)

  ghost function Writes(cfg: T.Config, w: World, now: Timestamp, n: nat): World
    requires w.outbox.rotation.Some? && Distinguishes(w.outbox)
    decreases n
  {
    if n == 0 || !NextWrite(cfg, w, now).Write? then w
    else
      WritesRunOut(cfg, w, now);
      Writes(cfg, NextWrite(cfg, w, now).world, now, n - 1)
  }

  /** A rotation whose process fails or dies after so many writes. */
  ghost function Interrupted(cfg: T.Config, w: World, newId: string, reason: string, now: Timestamp, writes: nat): World
    requires Distinguishes(w.outbox)
  {
    if Unfinished(w.outbox) then Writes(cfg, w, now, writes)
    else
      var (o, reply) := O.BeginRotation(w.outbox, w.data.installationId, newId, reason, now);
      if reply.Failed? || writes == 0 then w else Writes(cfg, w.(outbox := o), now, writes - 1)
  }

  /** Startup: the outbox is reopened and an unfinished rotation is taken up. */
  ghost function Restarted(cfg: T.Config, w: World, now: Timestamp): World
    requires Distinguishes(w.outbox)
  {
    Recovered(cfg, w.(outbox := O.Reopen(cfg, w.outbox, now)), now).0
  }

  ghost function Next(cfg: T.Config, s: System, e: Event): System
    requires Possible(s, e)
  {
    var w := s.world;
    match e
    case Submit(code, newId, now) => s.(world := Submitted(cfg, w, code, newId, now).0, seen := s.seen + {newId})
    case Lifecycle(change, reason, clearDurable, newId, now) =>
      s.(world := Changed(cfg, w, change, reason, clearDurable, newId, now).0, seen := s.seen + {newId})
    case BrokenRotation(newId, reason, writes, now) =>
      s.(world := Interrupted(cfg, w, newId, reason, now, writes), seen := s.seen + {newId})
    case Ask(connected, now) =>
      var (d, call, _) := Asked(w.data, connected, now);
      s.(world := w.(data := d), asked := call)
    case Answer(reply, now) =>
      s.(world := w.(data := Answered(w.data, s.asked.value, reply, now)), asked := None,
         activated := if reply.ActivatedAs? then s.activated + [s.asked.value.installationId] else s.activated)
    case Elsewhere(step) => s.(world := w.(outbox := OutboxRuns.Next(cfg, w.outbox, step)))
    case Restart(now) => s.(world := Restarted(cfg, w, now), asked := None)
  }

  /** The receiver state has been renewed and recorded as renewed, but the rotation is not completed. */
  predicate InGap(w: World) {
    w.outbox.rotation.Some? && w.outbox.rotation.value.phase == T.StateRotated
  }

  predicate Possible(s: System, e: Event) {
    && Distinguishes(s.world.outbox)
    && match e
       case Ask(_, _) => s.asked.None?
       case Answer(reply, _) => s.asked.Some? && Answers(s.asked.value, reply)
       case Elsewhere(step) =>
         step.op != DoQuarantineRotation && !step.op.DoBeginRotation? && !step.op.DoAdvanceRotation?
       case BrokenRotation(_, _, _, _) => s.world.data.bound
       case _ => true
  }

  /** Identities are fresh, and no code is submitted for a receiver that was bound before its rotation completed. */
  predicate Permitted(s: System, e: Event) {
    match e
    case Submit(_, newId, _) => newId != "" && newId !in s.seen && !(InGap(s.world) && s.world.data.bound)
    case Lifecycle(_, _, _, newId, _) => newId != "" && newId !in s.seen
    case BrokenRotation(newId, _, _, _) => newId != "" && newId !in s.seen
    case _ => true
  }

  // What every event keeps

  predicate JournalConsistent(w: World, activated: seq<string>) {
    Unfinished(w.outbox) ==>
      var journal := w.outbox.rotation.value;
      var before := w.data.bound && w.data.installationId == journal.oldInstallationId && journal.newInstallationId !in activated;
      var renewed := w.data.installationId == journal.newInstallationId;
      match journal.phase
      case Intent => before
      case OldBindingQuarantined => before || renewed
      case StateRotated => renewed
      case Completed => true
  }

  predicate Known(w: World, activated: seq<string>, seen: set<string>) {
    && w.data.installationId in seen
    && (forall id | id in activated :: id in seen)
    && (Unfinished(w.outbox) ==> w.outbox.rotation.value.newInstallationId in seen && w.outbox.rotation.value.newInstallationId != "")
  }

  predicate DataConsistent(d: Data, activated: seq<string>) {
    && d.installationId != ""
    && (d.phase.CodeEntered? || d.phase.BootstrapExchanged? ==> !d.bound)
    && (d.installationId in activated <==> d.bound)
  }

  predicate Consistent(w: World, activated: seq<string>, seen: set<string>) {
    Distinguishes(w.outbox) && DataConsistent(w.data, activated) && JournalConsistent(w, activated) && Known(w, activated, seen)
  }

  /** Nothing is asked for a bound record, and what is asked is asked for the stored identity. */
  predicate AskConsistent(w: World, asked: Option<Call>) {
    asked.Some? ==> !w.data.bound && (asked.value.Activate? ==> asked.value.installationId == w.data.installationId)
  }

  predicate Unrepeated(ids: seq<string>) {
    forall i, j | 0 <= i < j < |ids| :: ids[i] != ids[j]
  }

  predicate Inv(s: System) {
    Consistent(s.world, s.activated, s.seen) && AskConsistent(s.world, s.asked) && Unrepeated(s.activated)
  }

  lemma WriteKeeps(cfg: T.Config, w: World, now: Timestamp, activated: seq<string>, seen: set<string>)
    requires Consistent(w, activated, seen) && w.outbox.rotation.Some? && NextWrite(cfg, w, now).Write?
    ensures var w' := NextWrite(cfg, w, now).world;
            && Consistent(w', activated, seen) && w'.outbox.rotation.Some? && WritesLeft(w') < WritesLeft(w)
            && (InGap(w') ==> !w'.data.bound) && (!InGap(w) || !w.data.bound ==> Unfinished(w'.outbox) || !w'.data.bound)
  {
    hide O.QuarantineRotation;
    WritesRunOut(cfg, w, now);
    if w.outbox.rotation.value.phase == T.Intent {
      QuarantineAdvances(cfg, w.outbox, now);
    }
  }

  lemma WritesKeep(cfg: T.Config, w: World, now: Timestamp, n: nat, activated: seq<string>, seen: set<string>)
    requires Consistent(w, activated, seen) && w.outbox.rotation.Some? && Distinguishes(w.outbox)
    ensures Consistent(Writes(cfg, w, now, n), activated, seen)
    decreases n
  {
    hide NextWrite, Consistent;
    if n > 0 && NextWrite(cfg, w, now).Write? {
      WriteKeeps(cfg, w, now, activated, seen);
      WritesRunOut(cfg, w, now);
      WritesKeep(cfg, NextWrite(cfg, w, now).world, now, n - 1, activated, seen);
    }
  }

  /** A rotation that succeeds leaves the record unbound, unless it was bound in the gap. */
  lemma ResumeKeeps(cfg: T.Config, w: World, now: Timestamp, activated: seq<string>, seen: set<string>)
    requires Consistent(w, activated, seen) && w.outbox.rotation.Some?
    requires Unfinished(w.outbox) || !w.data.bound
    ensures var (w', r) := Resume(cfg, w, now);
            && Consistent(w', activated, seen)
            && (!r.Refused? ==> !Unfinished(w'.outbox) && (w'.data.bound ==> InGap(w) && w.data.bound))
    decreases WritesLeft(w)
  {
    hide Resume;
    if NextWrite(cfg, w, now).Write? {
      WriteKeeps(cfg, w, now, activated, seen);
      ResumeAfter(cfg, w, NextWrite(cfg, w, now).world, now);
      if !InGap(w) || !w.data.bound {
        ResumeKeeps(cfg, NextWrite(cfg, w, now).world, now, activated, seen);
      } else {
        ResumeEnds(cfg, NextWrite(cfg, w, now).world, now);
      }
    } else {
      ResumeEnds(cfg, w, now);
    }
  }

  lemma BeginKeeps(w: World, newId: string, reason: string, now: Timestamp, activated: seq<string>, seen: set<string>)
    requires Consistent(w, activated, seen) && w.data.bound && !Unfinished(w.outbox) && newId != "" && newId !in seen
    ensures var (o, reply) := O.BeginRotation(w.outbox, w.data.installationId, newId, reason, now);
            reply.Done? && Unfinished(o) && !InGap(w.(outbox := o)) && Consistent(w.(outbox := o), activated, seen + {newId})
  {
  }

  lemma SeenGrows(w: World, activated: seq<string>, seen: set<string>, newId: string)
    requires Consistent(w, activated, seen)
    ensures Consistent(w, activated, seen + {newId})
  {
  }

  lemma RotatedByKeeps(cfg: T.Config, w: World, newId: string, reason: string, now: Timestamp, activated: seq<string>, seen: set<string>)
    requires Consistent(w, activated, seen) && w.data.bound && newId != "" && newId !in seen
    ensures var (w', r) := RotatedBy(cfg, w, newId, reason, now);
            && Consistent(w', activated, seen + {newId})
            && (!r.Refused? && !InGap(w) ==> !w'.data.bound)
  {
    hide Resume, O.BeginRotation, JournalConsistent, Known;
    SeenGrows(w, activated, seen, newId);
    if Unfinished(w.outbox) {
      ResumeKeeps(cfg, w, now, activated, seen + {newId});
    } else {
      BeginKeeps(w, newId, reason, now, activated, seen);
      var o := O.BeginRotation(w.outbox, w.data.installationId, newId, reason, now).0;
      ResumeKeeps(cfg, w.(outbox := o), now, activated, seen + {newId});
    }
  }

  lemma InterruptedKeeps(cfg: T.Config, w: World, newId: string, reason: string, now: Timestamp, writes: nat, activated: seq<string>, seen: set<string>)
    requires Consistent(w, activated, seen) && w.data.bound && newId != "" && newId !in seen
    ensures Consistent(Interrupted(cfg, w, newId, reason, now, writes), activated, seen + {newId})
  {
    hide Writes, Consistent, O.BeginRotation;
    SeenGrows(w, activated, seen, newId);
    if Unfinished(w.outbox) {
      WritesKeep(cfg, w, now, writes, activated, seen + {newId});
    } else {
      BeginKeeps(w, newId, reason, now, activated, seen);
      var o := O.BeginRotation(w.outbox, w.data.installationId, newId, reason, now).0;
      if writes > 0 {
        WritesKeep(cfg, w.(outbox := o), now, writes - 1, activated, seen + {newId});
      }
    }
  }

  /** Only a record that is not bound may take a code. */
  lemma CodeKeeps(w: World, code: string, activated: seq<string>, seen: set<string>)
    requires Consistent(w, activated, seen) && !w.data.bound
    ensures Consistent(w.(data := WithCode(w.data, code)), activated, seen)
  {
  }

  lemma SubmitKeeps(cfg: T.Config, s: System, e: Event)
    requires Inv(s) && Possible(s, e) && Permitted(s, e) && e.Submit?
    ensures Inv(Next(cfg, s, e))
  {
    hide RotatedBy, JournalConsistent, Known, Unrepeated;
    var w := s.world;
    SeenGrows(w, s.activated, s.seen, e.newId);
    if w.data.bound {
      RotatedByKeeps(cfg, w, e.newId, "re_pair", e.now, s.activated, s.seen);
      var (w', r) := RotatedBy(cfg, w, e.newId, "re_pair", e.now);
      if !r.Refused? {
        CodeKeeps(w', e.code, s.activated, s.seen + {e.newId});
      }
    } else {
      CodeKeeps(w, e.code, s.activated, s.seen + {e.newId});
    }
  }

  lemma ClearedKeeps(w: World, now: Timestamp, clearDurable: bool, activated: seq<string>, seen: set<string>)
    requires Consistent(w, activated, seen)
    ensures Consistent(w.(data := Cleared(w.data, now, clearDurable)), activated, seen)
  {
  }

  lemma LifecycleKeeps(cfg: T.Config, s: System, e: Event)
    requires Inv(s) && Possible(s, e) && Permitted(s, e) && e.Lifecycle?
    ensures Inv(Next(cfg, s, e))
  {
    hide RotatedBy, JournalConsistent, Known, DataConsistent, Unrepeated;
    var w := s.world;
    SeenGrows(w, s.activated, s.seen, e.newId);
    if w.data.bound && Rotates(e.change) {
      RotatedByKeeps(cfg, w, e.newId, e.reason, e.now, s.activated, s.seen);
      var (w', r) := RotatedBy(cfg, w, e.newId, e.reason, e.now);
      if !r.Refused? {
        ClearedKeeps(w', e.now, e.clearDurable, s.activated, s.seen + {e.newId});
      }
    } else {
      ClearedKeeps(w, e.now, e.clearDurable, s.activated, s.seen + {e.newId});
    }
  }

  lemma AskKeeps(cfg: T.Config, s: System, e: Event)
    requires Inv(s) && Possible(s, e) && e.Ask?
    ensures Inv(Next(cfg, s, e))
  {
  }

  lemma AnswerKeeps(cfg: T.Config, s: System, e: Event)
    requires Inv(s) && Possible(s, e) && e.Answer?
    ensures Inv(Next(cfg, s, e))
  {
    if e.reply.ActivatedAs? {
      var id := s.asked.value.installationId;
      assert id !in s.activated;
      UnrepeatedMore(s.activated, id);
    }
  }

  lemma UnrepeatedMore(ids: seq<string>, id: string)
    requires Unrepeated(ids) && id !in ids
    ensures Unrepeated(ids + [id])
  {
    forall i, j | 0 <= i < j < |ids| + 1 ensures (ids + [id])[i] != (ids + [id])[j] {
      if j == |ids| {
        assert ids[i] in ids;
      }
    }
  }

  lemma RestartKeeps(cfg: T.Config, s: System, e: Event)
    requires Inv(s) && Possible(s, e) && e.Restart?
    ensures Inv(Next(cfg, s, e))
  {
    hide Resume, O.ResetInflight, O.Pruned, JournalConsistent, Known, Unrepeated;
    var w := s.world.(outbox := O.Reopen(cfg, s.world.outbox, e.now));
    SameJournal(cfg, s.world, w, s.activated, s.seen, Step(Crash, e.now));
    if Unfinished(w.outbox) {
      ResumeKeeps(cfg, w, e.now, s.activated, s.seen);
    }
  }

  lemma SameJournal(cfg: T.Config, w: World, w': World, activated: seq<string>, seen: set<string>, step: Step)
    requires Consistent(w, activated, seen) && w' == w.(outbox := OutboxRuns.Next(cfg, w.outbox, step))
    requires !step.op.DoBeginRotation? && !step.op.DoQuarantineRotation? && !step.op.DoAdvanceRotation?
    ensures Consistent(w', activated, seen) && w'.outbox.rotation == w.outbox.rotation
  {
    hide OutboxRuns.Next;
    R.JournalUntouched(cfg, w.outbox, step);
  }

  lemma EventKeeps(cfg: T.Config, s: System, e: Event)
    requires Inv(s) && Possible(s, e) && Permitted(s, e)
    ensures Inv(Next(cfg, s, e))
  {
    hide Consistent, Unrepeated, Submitted, Changed, Asked, Answered, Interrupted, Restarted, OutboxRuns.Next;
    match e
    case Submit(_, _, _) => SubmitKeeps(cfg, s, e);
    case Lifecycle(_, _, _, _, _) => LifecycleKeeps(cfg, s, e);
    case BrokenRotation(newId, reason, writes, now) =>
      InterruptedKeeps(cfg, s.world, newId, reason, now, writes, s.activated, s.seen);
    case Ask(_, _) => AskKeeps(cfg, s, e);
    case Answer(_, _) => AnswerKeeps(cfg, s, e);
    case Elsewhere(step) =>
      SameJournal(cfg, s.world, Next(cfg, s, e).world, s.activated, s.seen, step);
    case Restart(_) => RestartKeeps(cfg, s, e);
  }

  // Runs

  ghost predicate IsRun(cfg: T.Config, s: System, events: seq<Event>, t: System)
    decreases |events|
  {
    if events == [] then s == t else
      Possible(s, events[0]) && IsRun(cfg, Next(cfg, s, events[0]), events[1..], t)
  }

  ghost predicate PermittedRun(cfg: T.Config, s: System, events: seq<Event>)
    decreases |events|
  {
    events == [] || (Possible(s, events[0]) && Permitted(s, events[0]) && PermittedRun(cfg, Next(cfg, s, events[0]), events[1..]))
  }

  /** Whatever is submitted, retried, changed or crashed, no identity is activated a second time. */
  lemma {:induction false} NoIdentityActivatedTwice(cfg: T.Config, s: System, events: seq<Event>, t: System)
    requires Inv(s) && IsRun(cfg, s, events, t) && PermittedRun(cfg, s, events)
    ensures Inv(t) && Unrepeated(t.activated)
    decreases |events|
  {
    hide Next, Inv, Permitted, Possible;
    if events != [] {
      EventKeeps(cfg, s, events[0]);
      NoIdentityActivatedTwice(cfg, Next(cfg, s, events[0]), events[1..], t);
    } else {
      InvUnrepeated(s);
    }
  }

  lemma InvUnrepeated(s: System)
    requires Inv(s)
    ensures Unrepeated(s.activated)
  {
  }

  // The condition on submitting is needed

  function Round(now: Timestamp): seq<Event> {
    [Ask(true, now), Answer(Exchanged("token", now), now), Ask(true, now), Answer(ActivatedAs("owner", "receiver", "key"), now)]
  }

  function Bound(d: Data, now: Timestamp): Data {
    d.(phase := Activated, pairingCode := "", activationToken := "", activationExpires := None, retryCount := 0, nextRetryAt := None,
       ownerId := "owner", receiverId := "receiver", apiKey := "key", updatedAt := now, bound := true)
  }

  /** A code that has been taken can lead to an activation under the stored identity, bound or not. */
  lemma RoundActivates(cfg: T.Config, s: System, now: Timestamp)
    requires Distinguishes(s.world.outbox) && s.asked.None?
    requires s.world.data.phase.CodeEntered? && s.world.data.pairingCode != "" && s.world.data.nextRetryAt.None?
    ensures var t := s.(world := s.world.(data := Bound(s.world.data, now)), activated := s.activated + [s.world.data.installationId]);
            IsRun(cfg, s, Round(now), t) && PermittedRun(cfg, s, Round(now))
  {
    var e := Round(now);
    var s1 := Next(cfg, s, e[0]);
    var s2 := Next(cfg, s1, e[1]);
    var s3 := Next(cfg, s2, e[2]);
    var s4 := Next(cfg, s3, e[3]);
    assert e[1..] == [e[1], e[2], e[3]] && e[1..][1..] == [e[2], e[3]] && e[1..][1..][1..] == [e[3]] && e[1..][1..][1..][1..] == [];
    OneMore(cfg, s3, e[3], [], s4);
    OneMore(cfg, s2, e[2], [e[3]], s4);
    OneMore(cfg, s1, e[1], [e[2], e[3]], s4);
    OneMore(cfg, s, e[0], [e[1], e[2], e[3]], s4);
  }

  lemma OneMore(cfg: T.Config, s: System, e: Event, rest: seq<Event>, t: System)
    requires Possible(s, e) && IsRun(cfg, Next(cfg, s, e), rest, t)
    ensures IsRun(cfg, s, [e] + rest, t)
    ensures Permitted(s, e) && PermittedRun(cfg, Next(cfg, s, e), rest) ==> PermittedRun(cfg, s, [e] + rest)
  {
    hide Next, Possible, Permitted;
    assert ([e] + rest)[1..] == rest;
  }

  /**
   From every consistent state that is bound in the gap, a submission and one undisturbed pairing round activate the
   stored identity again: the submission completes the old rotation instead of starting a new one.
   */
  lemma SubmittingBoundInTheGapActivatesTwice(cfg: T.Config, s: System, e: Event, now: Timestamp) returns (t: System)
    requires Inv(s) && InGap(s.world) && s.world.data.bound
    requires e.Submit? && |e.code| >= MIN_CODE_LENGTH
    ensures var a := Next(cfg, s, e);
            IsRun(cfg, a, Round(now), t) && PermittedRun(cfg, a, Round(now)) && !Unrepeated(t.activated)
  {
    var id := s.world.data.installationId;
    GapCompletes(cfg, s.world, e.newId, e.now);
    var a := Next(cfg, s, e);
    RoundActivates(cfg, a, now);
    t := a.(world := a.world.(data := Bound(a.world.data, now)), activated := a.activated + [id]);
    Repeated(s.activated, id);
  }

  lemma Repeated(ids: seq<string>, id: string)
    requires id in ids
    ensures !Unrepeated(ids + [id])
  {
    var i :| 0 <= i < |ids| && ids[i] == id;
    assert (ids + [id])[i] == (ids + [id])[|ids|];
  }

  lemma GapCompletes(cfg: T.Config, w: World, newId: string, now: Timestamp)
    requires InGap(w) && Distinguishes(w.outbox)
    ensures var (w', r) := RotatedBy(cfg, w, newId, "re_pair", now);
            && !r.Refused? && w'.data == w.data && Distinguishes(w'.outbox)
  {
    var w1 := NextWrite(cfg, w, now).world;
    ResumeAfter(cfg, w, w1, now);
    ResumeEnds(cfg, w1, now);
  }

  /** A fresh installation meets the invariant. */
  lemma FreshInstallation(id: string, now: Timestamp)
    requires id != ""
    ensures Inv(Fresh(id, now))
  {
  }

  function Fresh(id: string, now: Timestamp): System {
    System(World(O.EMPTY, Data(id, false, now, Unpaired, "", "", None, 0, None, "", "", "", 0, now)), None, [], {id})
  }

  // The gap can be reached

  lemma {:induction false} Joined(cfg: T.Config, s: System, a: seq<Event>, m: System, b: seq<Event>, t: System)
    requires IsRun(cfg, s, a, m) && IsRun(cfg, m, b, t) && PermittedRun(cfg, s, a) && PermittedRun(cfg, m, b)
    ensures IsRun(cfg, s, a + b, t) && PermittedRun(cfg, s, a + b)
    decreases |a|
  {
    hide Next, Possible, Permitted;
    if a == [] {
      assert a + b == b;
    } else {
      assert (a + b)[1..] == a[1..] + b;
      Joined(cfg, Next(cfg, s, a[0]), a[1..], m, b, t);
    }
  }

  /** Four writes on an outbox with nothing waiting: begin, quarantine, renew, record as renewed. */
  lemma FourWrites(cfg: T.Config, w: World, newId: string, now: Timestamp)
    requires w.outbox.deliveries == map[] && !Unfinished(w.outbox) && Distinguishes(w.outbox)
    requires w.data.installationId != "" && newId != "" && newId != w.data.installationId
    ensures var w' := Interrupted(cfg, w, newId, "re_pair", now, 4);
            && InGap(w') && Distinguishes(w'.outbox) && !w'.data.bound
            && w'.data.installationId == newId && w'.data.nextRetryAt.None?
  {
    var w1 := w.(outbox := O.BeginRotation(w.outbox, w.data.installationId, newId, "re_pair", now).0);
    R.NothingToQuarantine(cfg, w1.outbox, now);
    QuarantineAdvances(cfg, w1.outbox, now);
    hide O.QuarantineRotation;
    var w2 := NextWrite(cfg, w1, now).world;
    var w3 := NextWrite(cfg, w2, now).world;
    var w4 := NextWrite(cfg, w3, now).world;
    assert Writes(cfg, w3, now, 1) == Writes(cfg, w4, now, 0);
    assert Writes(cfg, w2, now, 2) == Writes(cfg, w3, now, 1);
    assert Writes(cfg, w1, now, 3) == Writes(cfg, w2, now, 2);
  }

  /** One code, taken and activated, for an unbound record with no rotation under way. */
  lemma CodeToBinding(cfg: T.Config, s: System, code: string, newId: string, now: Timestamp) returns (t: System)
    requires Distinguishes(s.world.outbox) && s.asked.None? && !s.world.data.bound
    requires |code| >= MIN_CODE_LENGTH && newId != "" && newId !in s.seen
    ensures var events := [Submit(code, newId, now)] + Round(now); IsRun(cfg, s, events, t) && PermittedRun(cfg, s, events)
    ensures t.world.outbox == s.world.outbox && t.world.data.bound && t.asked.None? && t.seen == s.seen + {newId}
    ensures t.world.data.installationId == s.world.data.installationId
  {
    var a := Next(cfg, s, Submit(code, newId, now));
    RoundActivates(cfg, a, now);
    t := a.(world := a.world.(data := Bound(a.world.data, now)), activated := a.activated + [a.world.data.installationId]);
    hide IsRun, PermittedRun, Round;
    OneMore(cfg, s, Submit(code, newId, now), Round(now), t);
  }

  /** A fresh installation gets there in permitted steps: pair, rotate until the last write fails, pair again. */
  lemma GapIsReachable(cfg: T.Config, now: Timestamp) returns (s: System, events: seq<Event>, t: System)
    ensures Inv(s) && IsRun(cfg, s, events, t) && PermittedRun(cfg, s, events)
    ensures Inv(t) && InGap(t.world) && t.world.data.bound
  {
    var code := "ABCDEFGH";
    s := Fresh("a", now);
    FreshInstallation("a", now);
    var a := CodeToBinding(cfg, s, code, "b", now);
    var broken := BrokenRotation("c", "re_pair", 4, now);
    FourWrites(cfg, a.world, "c", now);
    var b := Next(cfg, a, broken);
    t := CodeToBinding(cfg, b, code, "d", now);
    var first := [Submit(code, "b", now)] + Round(now);
    var last := [Submit(code, "d", now)] + Round(now);
    events := first + ([broken] + last);
    assert Possible(a, broken) && Permitted(a, broken);
    hide IsRun, PermittedRun, Round, Inv, Next, Interrupted;
    OneMore(cfg, a, broken, last, t);
    Joined(cfg, s, first, a, [broken] + last, t);
    NoIdentityActivatedTwice(cfg, s, events, t);
  }
}

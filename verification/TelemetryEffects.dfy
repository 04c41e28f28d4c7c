/** What the arbiter decides about each response, exactly, in terms of the active request. */
module TelemetryEffects {
  import opened Common
  import opened TelemetryArbiter
  import L = TelemetryLaws

  /** A legacy response belongs to the active legacy request exactly when it carries the first six bytes of its target. */
  lemma LegacyExactly(a: Arbiter, prefix: seq<byte>)
    ensures var v := LegacyAnswered(a, prefix);
            var waiting := a.telemetry.Some? && a.telemetry.value.mode.Legacy?;
            && (v.Accepted? <==> waiting && prefix == a.telemetry.value.target[..6])
            && (v.Mismatched? <==> waiting && prefix != a.telemetry.value.target[..6])
            && (v.Ignored? <==> !waiting)
            && (!v.Ignored? ==> v.id == a.telemetry.value.id)
  {
  }

  /** A tagged response belongs to the active binary request that was given the tag, unless a finished one may still own it. */
  lemma TaggedExactly(a: Arbiter, tag: nat, at: int)
    ensures var (a', owner) := Answered(a, tag, at);
            && (owner.Some? <==>
                  && a.telemetry.Some? && a.telemetry.value.mode.Binary? && a.telemetry.value.tagKnown && a.telemetry.value.tag == tag
                  && !(tag in a.expired && at < a.expired[tag]))
            && (owner.Some? ==> owner.value == a.telemetry.value.id)
            && a'.telemetry == a.telemetry && a'.capability == a.capability
            && (forall t :: t in a'.expired <==> t in a.expired && at < a.expired[t])
            && (forall t | t in a'.expired :: a'.expired[t] == a.expired[t])
  {
  }

  /** A new request is sent in binary mode unless the Companion is known not to support it. */
  lemma RequestsExactly(a: Arbiter, id: nat, target: PublicKey)
    ensures var r := Requested(a, id, target).telemetry;
            r.Some? && r.value.id == id && r.value.target == target && !r.value.tagKnown && !r.value.awaitingContact && !r.value.fellBack
            && (r.value.mode.Binary? <==> a.capability != Unsupported)
  {
  }

  /** A tag is adopted exactly by an active binary request and when no finished request may still own it. */
  lemma AdoptsExactly(a: Arbiter, tag: nat, now: int)
    ensures var (a', refused) := SentRecorded(a, tag, now);
            var binary := a.telemetry.Some? && a.telemetry.value.mode.Binary?;
            var owned := tag in a.expired && now < a.expired[tag];
            && (refused.Some? <==> binary && owned) && (refused.Some? ==> refused.value == a.telemetry.value.id)
            && (binary && !owned ==> a'.capability.Supported? && a'.telemetry == Some(a.telemetry.value.(tag := tag, tagKnown := true)))
            && (!binary || owned ==> a'.telemetry == a.telemetry && a'.capability == a.capability)
            && (forall t | t in a'.expired :: t in a.expired && a'.expired[t] == a.expired[t] && (binary ==> now < a.expired[t]))
            && (forall t | t in a.expired && now < a.expired[t] :: t in a'.expired)
  {
  }

  /** Finishing keeps the tag of a tagged request for 45 seconds and frees no other slot. */
  lemma FinishesExactly(a: Arbiter, id: nat, now: int)
    ensures var a' := Finished(a, id, now);
            var current := a.telemetry.Some? && a.telemetry.value.id == id;
            && (current ==> a'.telemetry.None?) && (!current ==> a' == a) && a'.pathReset == a.pathReset && a'.capability == a.capability
            && (current && a.telemetry.value.mode.Binary? && a.telemetry.value.tagKnown ==>
                  a'.expired == a.expired[a.telemetry.value.tag := now + 45 * SECOND])
            && (current && !(a.telemetry.value.mode.Binary? && a.telemetry.value.tagKnown) ==> a'.expired == a.expired)
  {
  }

  /** A rejected binary command makes its request a legacy one exactly when the Companion says that it does not know it. */
  lemma FallsBackExactly(s: L.System, unsupported: bool)
    requires s.reader.Act? && s.reader.frame == L.CommandError(unsupported)
    ensures var t := L.Acted(s);
            var fallsBack := s.reader.request.Some? && s.reader.binary && unsupported;
            && (t.reader.FellBack? <==> fallsBack)
            && (fallsBack && Current(s.arbiter, s.reader.request.value) ==>
                  t.arbiter.capability.Unsupported? && t.arbiter.telemetry.value.mode.Legacy? && t.arbiter.telemetry.value.fellBack
                  && !t.arbiter.telemetry.value.tagKnown)
            && (!fallsBack ==> t.arbiter == s.arbiter)
            && (!fallsBack && s.arbiter.telemetry.Some? ==> t.reader == L.FinishOne(s.arbiter.telemetry.value.id, L.Failed(L.Firmware)))
            && (!fallsBack && s.arbiter.telemetry.None? ==> t.reader == L.Idle)
  {
  }

  /** A request waits for its contact from the moment it asks for it until a snapshot is completed, and nothing else of it changes. */
  lemma SnapshotsExactly(a: Arbiter, id: nat)
    requires Current(a, id)
    ensures var asks, done := Awaiting(a, id), Snapshotted(a, id);
            && Current(asks, id) && asks.telemetry.value.awaitingContact && Current(done, id) && !done.telemetry.value.awaitingContact
            && asks == a.(telemetry := asks.telemetry) && done == a.(telemetry := done.telemetry)
            && (forall r | r in {asks.telemetry.value, done.telemetry.value} ::
                  r.(awaitingContact := false) == a.telemetry.value.(awaitingContact := false))
  {
  }

  /** A new session knows nothing of the Companion and owes no tag to anybody. */
  lemma SessionForgets(a: Arbiter)
    ensures var t := SessionStarted(a); t.capability.Unknown? && t.expired == map[] && t.telemetry == a.telemetry && t.pathReset == a.pathReset
  {
  }

  /** A confirmed send gives the request its tag; one that is malformed, or names a tag not free yet, ends it. */
  lemma SentExactly(s: L.System, wellFormed: bool, tag: nat)
    requires s.reader.Act? && s.reader.frame == L.CommandSent(wellFormed, tag)
    ensures var t := L.Acted(s);
            var (a, refused) := SentRecorded(s.arbiter, tag, s.clock);
            var waiting := s.arbiter.telemetry.Some?;
            && t.arbiter == (if wellFormed then a else s.arbiter)
            && (!wellFormed ==> t.reader == if waiting then L.FinishOne(s.arbiter.telemetry.value.id, L.Failed(L.BadPayload)) else L.Idle)
            && (wellFormed && refused.Some? ==> t.reader == L.FinishOne(refused.value, L.Failed(L.Firmware)) && t.marks == s.marks)
            && (wellFormed && refused.None? ==> t.reader == L.Idle)
  {
  }

  /** Responses go to their handlers at once, every other frame first to the reset that may wait for it; both leave the reader idle in the end. */
  lemma ReadsExactly(s: L.System, frame: L.Frame, writeOk: bool)
    ensures L.Enabled(s, L.Read(frame)) ==>
              var t := L.Next(s, L.Read(frame));
              && t == s.(reader := t.reader)
              && (t.reader == L.Act(frame, None, false) <==> frame.LegacyResponse? || frame.BinaryResponse?)
              && (t.reader == L.CheckReset(frame) <==> !frame.LegacyResponse? && !frame.BinaryResponse?)
    ensures s.reader.CompleteContact? ==>
              var t := L.Stepped(s, writeOk); t.reader == L.Idle && t.arbiter == Snapshotted(s.arbiter, s.reader.id)
    ensures s.reader.FinishOne? || s.reader.FinishReset? ==> L.Stepped(s, writeOk).reader == L.Idle
    ensures s.reader.NoSession? ==> L.Next(s, L.StartSession).reader == L.Idle
  {
  }

  /** The legacy command is written only for the request that is still current, and a failed write ends it. */
  lemma LegacyIsWrittenOnce(s: L.System, writeOk: bool)
    ensures s.reader.FellBack? ==>
              L.Stepped(s, writeOk).reader == if Current(s.arbiter, s.reader.id) then L.WriteLegacy(s.reader.id) else L.Idle
    ensures s.reader.WriteLegacy? ==>
              L.Stepped(s, writeOk).reader == if writeOk then L.Idle else L.FinishOne(s.reader.id, L.Failed(L.Disconnected))
  {
  }

  /** A reset is done exactly when its command was accepted, fails when it was rejected, and no other frame touches it. */
  lemma ResetsExactly(s: L.System, frame: L.Frame, writeOk: bool)
    requires s.reader == L.CheckReset(frame)
    ensures var r := L.Stepped(s, writeOk).reader;
            var waiting := s.arbiter.pathReset.Some?;
            && (waiting && frame.CommandOk? ==> r == L.FinishReset(s.arbiter.pathReset.value.id, L.ResetDone))
            && (waiting && frame.CommandError? ==> r == L.FinishReset(s.arbiter.pathReset.value.id, L.Failed(L.Firmware)))
            && (!waiting || !(frame.CommandOk? || frame.CommandError?) ==> r == L.CheckRequest(frame))
  {
  }

  /** A route snapshot is completed only for a request that waits for one, by its own contact or by any other command response. */
  lemma ContactsExactly(s: L.System, frame: L.Frame)
    ensures var waiting := s.arbiter.telemetry.Some? && s.arbiter.telemetry.value.awaitingContact;
            var r := L.Checked(s, frame);
            && (r.CompleteContact? <==> waiting && (frame.Contact? ==> frame.key == s.arbiter.telemetry.value.target))
            && (r.CompleteContact? ==> r.id == s.arbiter.telemetry.value.id)
            && (frame.Contact? && !r.CompleteContact? ==> r == L.Idle)
            && (!frame.Contact? && !waiting ==> r.Act? && r.frame == frame)
  {
  }

  /** The end of a session goes through both slots: what is in them is finished as disconnected before the reader is gone. */
  lemma SessionEndFinishes(s: L.System, writeOk: bool)
    ensures var t := L.Stepped(s, writeOk);
            && (s.reader.EndReset? && s.arbiter.pathReset.Some? ==> t == s.(reader := L.EndResetOf(s.arbiter.pathReset.value.id)))
            && (s.reader.EndReset? && s.arbiter.pathReset.None? ==> t == s.(reader := L.EndTelemetry))
            && (s.reader.EndResetOf? ==> t.reader == L.EndTelemetry && !CurrentReset(t.arbiter, s.reader.id))
            && (s.reader.EndResetOf? && CurrentReset(s.arbiter, s.reader.id) ==> t.pending == s.pending + [L.Send(s.reader.id, L.Failed(L.Disconnected))])
            && (s.reader.EndTelemetry? && s.arbiter.telemetry.Some? ==> t == s.(reader := L.EndTelemetryOf(s.arbiter.telemetry.value.id)))
            && (s.reader.EndTelemetry? && s.arbiter.telemetry.None? ==> t == s.(reader := L.NoSession))
            && (s.reader.EndTelemetryOf? ==> t.reader == L.NoSession && !Current(t.arbiter, s.reader.id))
            && (s.reader.EndTelemetryOf? && Current(s.arbiter, s.reader.id) ==> t.pending == s.pending + [L.Send(s.reader.id, L.Failed(L.Disconnected))])
  {
  }

  /** What the reader does with each response it has matched. */
  lemma ResponsesFinish(s: L.System)
    requires s.reader.Act? && (s.reader.frame.LegacyResponse? || s.reader.frame.BinaryResponse?)
    ensures var t := L.Acted(s);
            match s.reader.frame
            case LegacyResponse(parsed, prefix) =>
              var waiting := s.arbiter.telemetry.Some?;
              && (!parsed ==> t.reader == if waiting then L.FinishOne(s.arbiter.telemetry.value.id, L.Failed(L.BadPayload)) else L.Idle)
              && (parsed && waiting && s.arbiter.telemetry.value.mode.Legacy? ==>
                    t.reader == L.FinishOne(s.arbiter.telemetry.value.id,
                                            if prefix == s.arbiter.telemetry.value.target[..6] then L.LegacyResult(prefix) else L.Failed(L.MismatchedSource)))
              && (parsed && !(waiting && s.arbiter.telemetry.value.mode.Legacy?) ==> t.reader == L.Idle)
              && t.arbiter == s.arbiter && t.legacy == s.legacy + (if parsed then [L.Heard(prefix, s.arbiter.telemetry)] else [])
            case BinaryResponse(parsed, tag, at) =>
              var owner := Answered(s.arbiter, tag, at).1;
              var named := s.arbiter.telemetry.Some? && Tagged(s.arbiter.telemetry.value) && s.arbiter.telemetry.value.tag == tag;
              && t.arbiter == (if parsed then Answered(s.arbiter, tag, at).0 else s.arbiter)
              && (parsed ==> t.reader == if owner.Some? then L.FinishOne(owner.value, L.TaggedResult(tag)) else L.Idle)
              && (!parsed ==> t.reader == if named then L.FinishOne(s.arbiter.telemetry.value.id, L.Failed(L.BadPayload)) else L.Idle)
            case _ => true
  {
  }
}

/** The arbiter under every interleaving of callers, timers and the session reader. */
module TelemetryLaws {
  import opened Common
  import opened TelemetryArbiter

  datatype Failure = TimedOut | Disconnected | Firmware | MismatchedSource | BadPayload | Cancelled

  datatype Completion = Failed(why: Failure) | ResetDone | LegacyResult(prefix: seq<byte>) | TaggedResult(tag: nat)

  /** A completion whose sender has left the lock but not yet put it on the request's channel. */
  datatype Send = Send(id: nat, completion: Completion)

  /** What a frame from the Companion means to the arbiter. */
  datatype Frame =
    | CommandOk
    | CommandError(unsupported: bool)
    | CommandSent(wellFormed: bool, tag: nat)
    | Contact(key: PublicKey)
    | LegacyResponse(parsed: bool, prefix: seq<byte>)
    | BinaryResponse(parsed: bool, tag: nat, at: int)

  /** Where the one reader of a session is between two of its lock sections. */
  datatype Reader =
    | NoSession
    | Idle
    | CheckReset(frame: Frame)
    | FinishReset(id: nat, completion: Completion)
    | CheckRequest(frame: Frame)
    | CompleteContact(id: nat)
    | Act(frame: Frame, request: Option<nat>, binary: bool)
    | FellBack(id: nat)
    | WriteLegacy(id: nat)
    | FinishOne(id: nat, completion: Completion)
    | EndReset
    | EndResetOf(id: nat)
    | EndTelemetry
    | EndTelemetryOf(id: nat)

  /** What happened to tags within the session. */
  datatype Mark = Adopted(id: nat, tag: nat, at: int) | Freed(id: nat, tag: nat, at: int) | Succeeded(id: nat, tag: nat)

  /** Parsed legacy responses with the request that was active when each was acted on, and the requests completed by one. */
  datatype LegacyMark = Heard(prefix: seq<byte>, active: Option<TelemetryArbiter.Request>) | CompletedBy(id: nat, prefix: seq<byte>)

  datatype System = System(
    arbiter: Arbiter,
    reader: Reader,
    pending: seq<Send>,
    channels: map<nat, seq<Completion>>,
    issued: nat,
    clock: int,
    marks: seq<Mark>,
    legacy: seq<LegacyMark>)

  datatype Event =
    | Request(target: PublicKey)
    | Reset(target: PublicKey)
    | AwaitContact(id: nat)
    | EndSnapshot(id: nat)
    | Abort(id: nat, why: Failure)
    | AbortReset(id: nat, why: Failure)
    | Deliver(i: nat)
    | Tick(now: int)
    | Read(frame: Frame)
    | Step(writeOk: bool)
    | EndSession
    | StartSession

  predicate Enabled(s: System, e: Event) {
    match e
    case Deliver(i) => i < |s.pending|
    case Tick(now) => now >= s.clock
    case Read(frame) => s.reader.Idle? && (frame.BinaryResponse? ==> frame.at <= s.clock)
    case Step(_) => !s.reader.NoSession? && !s.reader.Idle?
    case EndSession => s.reader.Idle?
    case StartSession => s.reader.NoSession?
    case _ => true
  }

  /** A section that finishes a telemetry request, whoever runs it. */
  function Finish(s: System, id: nat, c: Completion): System {
    if !Current(s.arbiter, id) then s else
      var r := s.arbiter.telemetry.value;
      var freed := if Tagged(r) then [Freed(id, r.tag, s.clock)] else [];
      s.(arbiter := Finished(s.arbiter, id, s.clock), pending := s.pending + [Send(id, c)],
         marks := s.marks + (if c.TaggedResult? then [Succeeded(id, c.tag)] else []) + freed,
         legacy := if c.LegacyResult? then s.legacy + [CompletedBy(id, c.prefix)] else s.legacy)
  }

  function FinishPath(s: System, id: nat, c: Completion): System {
    if CurrentReset(s.arbiter, id) then s.(arbiter := ResetFinished(s.arbiter, id), pending := s.pending + [Send(id, c)]) else s
  }

  function FinishCurrent(s: System, why: Failure): Reader {
    if s.arbiter.telemetry.Some? then FinishOne(s.arbiter.telemetry.value.id, Failed(why)) else Idle
  }

  function Acted(s: System): System
    requires s.reader.Act?
  {
    var frame := s.reader.frame;
    match frame
    case CommandError(unsupported) =>
      if s.reader.request.Some? && s.reader.binary && unsupported
      then s.(arbiter := FallenBack(s.arbiter, s.reader.request.value), reader := FellBack(s.reader.request.value))
      else s.(reader := FinishCurrent(s, Firmware))
    case CommandSent(wellFormed, tag) =>
      if !wellFormed then s.(reader := FinishCurrent(s, BadPayload)) else
        var (a, refused) := SentRecorded(s.arbiter, tag, s.clock);
        if refused.Some? then s.(arbiter := a, reader := FinishOne(refused.value, Failed(Firmware)))
        else s.(arbiter := a, reader := Idle,
                marks := if s.arbiter.telemetry.Some? && s.arbiter.telemetry.value.mode.Binary?
                         then s.marks + [Adopted(s.arbiter.telemetry.value.id, tag, s.clock)] else s.marks)
    case LegacyResponse(parsed, prefix) =>
      if !parsed then s.(reader := FinishCurrent(s, BadPayload)) else
        var heard := s.legacy + [Heard(prefix, s.arbiter.telemetry)];
        (match LegacyAnswered(s.arbiter, prefix)
         case Ignored => s.(reader := Idle, legacy := heard)
         case Mismatched(id) => s.(reader := FinishOne(id, Failed(MismatchedSource)), legacy := heard)
         case Accepted(id) => s.(reader := FinishOne(id, LegacyResult(prefix)), legacy := heard))
    case BinaryResponse(parsed, tag, at) =>
      if !parsed then
        var t := s.arbiter.telemetry;
        s.(reader := if t.Some? && Tagged(t.value) && t.value.tag == tag then FinishOne(t.value.id, Failed(BadPayload)) else Idle)
      else
        var (a, owner) := Answered(s.arbiter, tag, at);
        s.(arbiter := a, reader := if owner.Some? then FinishOne(owner.value, TaggedResult(tag)) else Idle)
    case _ => s.(reader := Idle)
  }

  function Checked(s: System, frame: Frame): Reader {
    var t := s.arbiter.telemetry;
    if frame.Contact? then
      if t.Some? && t.value.awaitingContact && t.value.target == frame.key then CompleteContact(t.value.id) else Idle
    else if t.Some? && t.value.awaitingContact then CompleteContact(t.value.id)
    else Act(frame, if t.Some? then Some(t.value.id) else None, t.Some? && t.value.mode.Binary?)
  }

  function Stepped(s: System, writeOk: bool): System {
    var a := s.arbiter;
    match s.reader
    case CheckReset(frame) =>
      if a.pathReset.Some? && frame.CommandOk? then s.(reader := FinishReset(a.pathReset.value.id, ResetDone))
      else if a.pathReset.Some? && frame.CommandError? then s.(reader := FinishReset(a.pathReset.value.id, Failed(Firmware)))
      else s.(reader := CheckRequest(frame))
    case FinishReset(id, c) => FinishPath(s, id, c).(reader := Idle)
    case CheckRequest(frame) => s.(reader := Checked(s, frame))
    case CompleteContact(id) => s.(arbiter := Snapshotted(a, id), reader := Idle)
    case Act(_, _, _) => Acted(s)
    case FellBack(id) => s.(reader := if Current(a, id) then WriteLegacy(id) else Idle)
    case WriteLegacy(id) => s.(reader := if writeOk then Idle else FinishOne(id, Failed(Disconnected)))
    case FinishOne(id, c) => Finish(s, id, c).(reader := Idle)
    case EndReset => s.(reader := if a.pathReset.Some? then EndResetOf(a.pathReset.value.id) else EndTelemetry)
    case EndResetOf(id) => FinishPath(s, id, Failed(Disconnected)).(reader := EndTelemetry)
    case EndTelemetry => s.(reader := if a.telemetry.Some? then EndTelemetryOf(a.telemetry.value.id) else NoSession)
    case EndTelemetryOf(id) => Finish(s, id, Failed(Disconnected)).(reader := NoSession)
    case _ => s
  }

  function Issued(s: System, a: Arbiter): System {
    s.(arbiter := a, issued := s.issued + 1, channels := s.channels[s.issued := []])
  }

  function Delivered(s: System, i: nat): System
    requires i < |s.pending|
  {
    var send := s.pending[i];
    var before := if send.id in s.channels then s.channels[send.id] else [];
    s.(pending := s.pending[..i] + s.pending[i + 1..], channels := s.channels[send.id := before + [send.completion]])
  }

  function Next(s: System, e: Event): System
    requires Enabled(s, e)
  {
    match e
    case Request(target) => if Free(s.arbiter) then Issued(s, Requested(s.arbiter, s.issued, target)) else s
    case Reset(target) => if Free(s.arbiter) then Issued(s, ResetRequested(s.arbiter, s.issued, target)) else s
    case AwaitContact(id) => s.(arbiter := Awaiting(s.arbiter, id))
    case EndSnapshot(id) => s.(arbiter := Snapshotted(s.arbiter, id))
    case Abort(id, why) => Finish(s, id, Failed(why))
    case AbortReset(id, why) => FinishPath(s, id, Failed(why))
    case Deliver(i) => Delivered(s, i)
    case Tick(now) => s.(clock := now)
    case Read(frame) =>
      s.(reader := if frame.LegacyResponse? || frame.BinaryResponse? then Act(frame, None, false) else CheckReset(frame))
    case Step(writeOk) => Stepped(s, writeOk)
    case EndSession => s.(reader := EndReset)
    case StartSession => s.(arbiter := SessionStarted(s.arbiter), reader := Idle, marks := [])
  }

  // One completion per request

  predicate InSlot(s: System, id: nat) {
    Current(s.arbiter, id) || CurrentReset(s.arbiter, id)
  }

  predicate BeingSent(s: System, id: nat) {
    exists i | 0 <= i < |s.pending| :: s.pending[i].id == id
  }

  predicate Sent(s: System, id: nat) {
    id in s.channels && |s.channels[id]| == 1
  }

  /** Each request is in its slot, being completed or completed: one of the three, and completed at most once. */
  predicate Place(s: System, id: nat) {
    && id in s.channels && |s.channels[id]| <= 1
    && (InSlot(s, id) ==> !BeingSent(s, id) && !Sent(s, id))
    && (BeingSent(s, id) ==> !Sent(s, id))
    && (InSlot(s, id) || BeingSent(s, id) || Sent(s, id))
  }

  ghost predicate OnePerRequest(s: System) {
    && !(s.arbiter.telemetry.Some? && s.arbiter.pathReset.Some?)
    && (forall i, j | 0 <= i < j < |s.pending| :: s.pending[i].id != s.pending[j].id)
    && (forall i | 0 <= i < |s.pending| :: s.pending[i].id < s.issued)
    && (forall id: nat | id < s.issued :: Place(s, id))
    && (forall id: nat | InSlot(s, id) :: id < s.issued)
  }

  /** Only the fields the completions depend on matter. */
  lemma SamePlaces(s: System, t: System)
    requires OnePerRequest(s)
    requires t.pending == s.pending && t.channels == s.channels && t.issued == s.issued
    requires t.arbiter.telemetry.Some? == s.arbiter.telemetry.Some? && t.arbiter.pathReset == s.arbiter.pathReset
    requires s.arbiter.telemetry.Some? ==> t.arbiter.telemetry.value.id == s.arbiter.telemetry.value.id
    ensures OnePerRequest(t)
  {
    assert forall id :: InSlot(t, id) == InSlot(s, id) && BeingSent(t, id) == BeingSent(s, id) && Sent(t, id) == Sent(s, id);
    forall id: nat | id < t.issued ensures Place(t, id) {
      assert Place(s, id);
    }
  }

  lemma FinishPlaces(s: System, id: nat, c: Completion)
    requires OnePerRequest(s)
    ensures OnePerRequest(Finish(s, id, c)) && OnePerRequest(FinishPath(s, id, c))
  {
    LeavesSlot(s, Finish(s, id, c), id, c);
    LeavesSlot(s, FinishPath(s, id, c), id, c);
  }

  lemma LeavesSlot(s: System, t: System, id: nat, c: Completion)
    requires OnePerRequest(s)
    requires t.arbiter.telemetry == s.arbiter.telemetry || (Current(s.arbiter, id) && t.arbiter.telemetry.None?)
    requires t.arbiter.pathReset == s.arbiter.pathReset || (CurrentReset(s.arbiter, id) && t.arbiter.pathReset.None?)
    requires t.channels == s.channels && t.issued == s.issued
    requires if t.arbiter.telemetry == s.arbiter.telemetry && t.arbiter.pathReset == s.arbiter.pathReset
             then t.pending == s.pending else t.pending == s.pending + [Send(id, c)]
    ensures OnePerRequest(t)
  {
    if t.pending == s.pending {
      SamePlaces(s, t);
    } else {
      assert InSlot(s, id) && Place(s, id);
      forall k: nat | k < t.issued ensures Place(t, k) {
        assert Place(s, k);
        assert t.pending[|s.pending|].id == id;
        if BeingSent(s, k) {
          var i :| 0 <= i < |s.pending| && s.pending[i].id == k;
          assert t.pending[i].id == k;
        }
      }
    }
  }

  lemma IssuePlaces(s: System, a: Arbiter)
    requires OnePerRequest(s) && Free(s.arbiter)
    requires (a.telemetry.Some? && a.telemetry.value.id == s.issued && a.pathReset.None?)
          || (a.pathReset.Some? && a.pathReset.value.id == s.issued && a.telemetry.None?)
    ensures OnePerRequest(Issued(s, a))
  {
    var t := Issued(s, a);
    assert !BeingSent(t, s.issued);
    assert InSlot(t, s.issued) && Place(t, s.issued);
    forall k: nat | k < t.issued ensures Place(t, k) {
      if k < s.issued {
        assert Place(s, k);
        assert BeingSent(t, k) == BeingSent(s, k);
      }
    }
  }

  lemma DeliveredPending(s: System, i: nat, k: nat)
    requires OnePerRequest(s) && i < |s.pending|
    ensures BeingSent(Delivered(s, i), k) <==> BeingSent(s, k) && k != s.pending[i].id
  {
    var t := Delivered(s, i);
    if BeingSent(s, k) && k != s.pending[i].id {
      var j :| 0 <= j < |s.pending| && s.pending[j].id == k;
      assert t.pending[if j < i then j else j - 1].id == k;
    }
    if BeingSent(t, k) {
      var j :| 0 <= j < |t.pending| && t.pending[j].id == k;
      assert s.pending[if j < i then j else j + 1].id == k;
    }
  }

  /** The one-element channel is empty when its completion is put on it, so the sender never blocks. */
  lemma SendersNeverBlock(s: System, i: nat)
    requires OnePerRequest(s) && i < |s.pending|
    ensures s.pending[i].id in s.channels && s.channels[s.pending[i].id] == []
  {
    assert BeingSent(s, s.pending[i].id);
    assert Place(s, s.pending[i].id);
  }

  lemma DeliverPlaces(s: System, i: nat)
    requires OnePerRequest(s) && i < |s.pending|
    ensures OnePerRequest(Delivered(s, i))
  {
    SendersNeverBlock(s, i);
    var id := s.pending[i].id;
    var t := Delivered(s, i);
    forall k: nat | k < t.issued ensures Place(t, k) {
      DeliveredPending(s, i, k);
      hide BeingSent;
      assert Place(s, k);
      BeingSentAt(s, i);
      assert k != id ==> t.channels[k] == s.channels[k];
      assert InSlot(t, k) == InSlot(s, k);
    }
    forall k: nat | InSlot(t, k) ensures k < t.issued {
      assert InSlot(s, k);
    }
    assert forall a, b | 0 <= a < b < |t.pending| :: t.pending[a].id != t.pending[b].id;
  }

  lemma BeingSentAt(s: System, i: nat)
    requires i < |s.pending|
    ensures BeingSent(s, s.pending[i].id)
  {
  }

  lemma ActedPlaces(s: System)
    requires OnePerRequest(s) && s.reader.Act?
    ensures OnePerRequest(Acted(s))
  {
    hide OnePerRequest;
    SamePlaces(s, Acted(s));
  }

  lemma SteppedPlaces(s: System, writeOk: bool)
    requires OnePerRequest(s)
    ensures OnePerRequest(Stepped(s, writeOk))
  {
    hide OnePerRequest, Acted, Finish, FinishPath, Checked;
    match s.reader
    case FinishReset(id, c) =>
      FinishPlaces(s, id, c);
      SamePlaces(FinishPath(s, id, c), Stepped(s, writeOk));
    case FinishOne(id, c) =>
      FinishPlaces(s, id, c);
      SamePlaces(Finish(s, id, c), Stepped(s, writeOk));
    case EndResetOf(id) =>
      FinishPlaces(s, id, Failed(Disconnected));
      SamePlaces(FinishPath(s, id, Failed(Disconnected)), Stepped(s, writeOk));
    case EndTelemetryOf(id) =>
      FinishPlaces(s, id, Failed(Disconnected));
      SamePlaces(Finish(s, id, Failed(Disconnected)), Stepped(s, writeOk));
    case Act(_, _, _) => ActedPlaces(s);
    case _ => SamePlaces(s, Stepped(s, writeOk));
  }

  lemma NextPlaces(s: System, e: Event)
    requires OnePerRequest(s) && Enabled(s, e)
    ensures OnePerRequest(Next(s, e))
  {
    hide OnePerRequest, Stepped, Finish, FinishPath, Delivered, Issued;
    match e
    case Request(target) => if Free(s.arbiter) { IssuePlaces(s, Requested(s.arbiter, s.issued, target)); }
    case Reset(target) => if Free(s.arbiter) { IssuePlaces(s, ResetRequested(s.arbiter, s.issued, target)); }
    case Abort(id, why) => FinishPlaces(s, id, Failed(why));
    case AbortReset(id, why) => FinishPlaces(s, id, Failed(why));
    case Deliver(i) => DeliverPlaces(s, i);
    case Step(writeOk) => SteppedPlaces(s, writeOk);
    case _ => SamePlaces(s, Next(s, e));
  }

  // Capability

  predicate UnsupportedMeansLegacy(s: System) {
    s.arbiter.capability.Unsupported? && s.arbiter.telemetry.Some? ==> s.arbiter.telemetry.value.mode.Legacy?
  }

  /** Once unsupported, the capability stays so for the session and the active request is a legacy one. */
  lemma UnsupportedStays(s: System, e: Event)
    requires UnsupportedMeansLegacy(s) && Enabled(s, e)
    ensures UnsupportedMeansLegacy(Next(s, e))
    ensures s.arbiter.capability.Unsupported? && !e.StartSession? ==> Next(s, e).arbiter.capability.Unsupported?
  {
  }

  // Tags

  /** The tag last recorded for a request. */
  function LastAdopted(marks: seq<Mark>, id: nat): Option<nat> {
    if marks == [] then None else
      var last := marks[|marks| - 1];
      if last.Adopted? && last.id == id then Some(last.tag) else LastAdopted(marks[..|marks| - 1], id)
  }

  /** A tag is adopted only when its last owner has been gone for the retention. */
  predicate Rested(marks: seq<Mark>) {
    forall i, j | 0 <= i < j < |marks| && marks[i].Freed? && marks[j].Adopted? && marks[i].tag == marks[j].tag ::
      marks[i].at + TAG_RETENTION <= marks[j].at
  }

  /** Every tagged success carries the tag last recorded for its request. */
  predicate Faithful(marks: seq<Mark>) {
    forall j | 0 <= j < |marks| && marks[j].Succeeded? :: LastAdopted(marks[..j], marks[j].id) == Some(marks[j].tag)
  }

  predicate Remembered(s: System) {
    forall i | 0 <= i < |s.marks| && s.marks[i].Freed? ::
      && s.marks[i].at <= s.clock
      && (s.clock < s.marks[i].at + TAG_RETENTION ==>
            s.marks[i].tag in s.arbiter.expired && s.arbiter.expired[s.marks[i].tag] >= s.marks[i].at + TAG_RETENTION)
  }

  /** The reader is about to report a tagged success only for a request that still has that tag. */
  predicate ReaderAgrees(s: System) {
    && (s.reader.FinishOne? && s.reader.completion.TaggedResult? && Current(s.arbiter, s.reader.id) ==>
          Tagged(s.arbiter.telemetry.value) && s.arbiter.telemetry.value.tag == s.reader.completion.tag)
    && (s.reader.NoSession? && s.arbiter.telemetry.Some? ==> !s.arbiter.telemetry.value.tagKnown)
    && (s.reader.EndTelemetryOf? && s.arbiter.telemetry.Some? ==> s.reader.id == s.arbiter.telemetry.value.id || !s.arbiter.telemetry.value.tagKnown)
  }

  predicate TagRecorded(s: System) {
    s.arbiter.telemetry.Some? && Tagged(s.arbiter.telemetry.value) ==>
      LastAdopted(s.marks, s.arbiter.telemetry.value.id) == Some(s.arbiter.telemetry.value.tag)
  }

  predicate TagInv(s: System) {
    && Rested(s.marks) && Faithful(s.marks) && Remembered(s) && TagRecorded(s) && ReaderAgrees(s)
    && (s.arbiter.telemetry.Some? ==> s.arbiter.telemetry.value.id < s.issued)
    && (s.reader.FinishOne? ==> s.reader.id < s.issued)
    && (s.reader.EndTelemetryOf? ==> s.reader.id < s.issued)
  }

  lemma AppendOther(marks: seq<Mark>, m: Mark, id: nat)
    ensures LastAdopted(marks + [m], id) == if m.Adopted? && m.id == id then Some(m.tag) else LastAdopted(marks, id)
  {
    assert (marks + [m])[..|marks|] == marks;
  }

  lemma AppendFaithful(marks: seq<Mark>, m: Mark)
    requires Faithful(marks) && (m.Succeeded? ==> LastAdopted(marks, m.id) == Some(m.tag))
    ensures Faithful(marks + [m])
  {
    var all := marks + [m];
    forall j | 0 <= j < |all| && all[j].Succeeded? ensures LastAdopted(all[..j], all[j].id) == Some(all[j].tag) {
      if j < |marks| {
        assert all[..j] == marks[..j];
      } else {
        assert all[..j] == marks;
      }
    }
  }

  lemma FinishFaithful(s: System, id: nat, c: Completion)
    requires TagInv(s)
    requires c.TaggedResult? && Current(s.arbiter, id) ==> Tagged(s.arbiter.telemetry.value) && s.arbiter.telemetry.value.tag == c.tag
    ensures Faithful(Finish(s, id, c).marks)
  {
    hide Rested, Remembered, ReaderAgrees, Finished;
    if Current(s.arbiter, id) {
      var r := s.arbiter.telemetry.value;
      var first := s.marks;
      if c.TaggedResult? {
        AppendFaithful(s.marks, Succeeded(id, c.tag));
        first := s.marks + [Succeeded(id, c.tag)];
      } else {
        assert s.marks + [] == s.marks;
      }
      if Tagged(r) {
        AppendFaithful(first, Freed(id, r.tag, s.clock));
      } else {
        assert first + [] == first;
      }
    }
  }

  lemma FinishRested(s: System, id: nat, c: Completion)
    requires Rested(s.marks) && Remembered(s)
    ensures Rested(Finish(s, id, c).marks) && Remembered(Finish(s, id, c))
  {
    hide LastAdopted;
  }

  lemma FinishTags(s: System, id: nat, c: Completion)
    requires TagInv(s)
    requires c.TaggedResult? && Current(s.arbiter, id) ==> Tagged(s.arbiter.telemetry.value) && s.arbiter.telemetry.value.tag == c.tag
    ensures TagInv(Finish(s, id, c))
  {
    FinishFaithful(s, id, c);
    FinishRested(s, id, c);
    hide Rested, Faithful, Remembered, LastAdopted, Finished;
    FinishKeepsReader(s, id, c);
    if !Current(s.arbiter, id) {
      assert Finish(s, id, c) == s;
    }
  }

  lemma FinishKeepsReader(s: System, id: nat, c: Completion)
    ensures Finish(s, id, c).reader == s.reader
    ensures Finish(s, id, c).arbiter.telemetry == (if Current(s.arbiter, id) then None else s.arbiter.telemetry)
  {
  }

  /** The table forgets only what is past the retention. */
  lemma PrunedRemembers(s: System, at: int)
    requires Remembered(s) && at <= s.clock
    ensures Remembered(s.(arbiter := s.arbiter.(expired := Pruned(s.arbiter.expired, at))))
  {
  }

  lemma SentTags(s: System, tag: nat)
    requires TagInv(s) && s.reader.Act? && s.reader.frame.CommandSent?
    ensures TagInv(Acted(s))
  {
    hide Finished;
    var t := Acted(s);
    PrunedRemembers(s, s.clock);
    if t.marks != s.marks {
      var m := t.marks[|s.marks|];
      assert t.marks == s.marks + [m] && m.Adopted?;
      AppendFaithful(s.marks, m);
      AppendOther(s.marks, m, m.id);
      assert Rested(t.marks);
      assert Remembered(t);
    }
  }

  lemma ActedTags(s: System)
    requires TagInv(s) && s.reader.Act? && (s.reader.frame.BinaryResponse? ==> s.reader.frame.at <= s.clock)
    ensures TagInv(Acted(s))
  {
    match s.reader.frame
    case CommandSent(_, tag) => SentTags(s, tag);
    case BinaryResponse(_, _, at) =>
      PrunedRemembers(s, at);
      assert Remembered(Acted(s));
    case _ => assert Remembered(Acted(s));
  }

  predicate ReadInPast(s: System) {
    && (s.reader.Act? && s.reader.frame.BinaryResponse? ==> s.reader.frame.at <= s.clock)
    && (s.reader.CheckReset? || s.reader.CheckRequest? ==> !s.reader.frame.BinaryResponse?)
  }

  lemma SteppedTags(s: System, writeOk: bool)
    requires TagInv(s) && ReadInPast(s) && ReaderKnows(s)
    ensures TagInv(Stepped(s, writeOk))
  {
    hide Rested, Faithful, Remembered, Finish, Acted;
    match s.reader
    case FinishOne(id, c) =>
      FinishTags(s, id, c);
      FinishKeepsReader(s, id, c);
      ReaderFree(Finish(s, id, c), Idle);
    case EndTelemetryOf(id) =>
      FinishTags(s, id, Failed(Disconnected));
      FinishKeepsReader(s, id, Failed(Disconnected));
      ReaderFree(Finish(s, id, Failed(Disconnected)), NoSession);
    case Act(_, _, _) => ActedTags(s);
    case _ =>
      SameTable(s, Stepped(s, writeOk));
  }

  lemma ReaderFree(s: System, r: Reader)
    requires TagInv(s) && (r.Idle? || r.NoSession?)
    requires r.NoSession? && s.arbiter.telemetry.Some? ==> !s.arbiter.telemetry.value.tagKnown
    ensures TagInv(s.(reader := r))
  {
    assert Remembered(s.(reader := r));
  }

  lemma SameTable(s: System, t: System)
    requires Remembered(s) && t.marks == s.marks && t.clock >= s.clock && t.arbiter.expired == s.arbiter.expired
    ensures Remembered(t)
  {
  }

  // Legacy responses

  /** The prefix came with a response that was acted on while this request was active in legacy mode, and is its target's. */
  predicate HeardFor(m: LegacyMark, id: nat, prefix: seq<byte>) {
    && m.Heard? && m.prefix == prefix && m.active.Some?
    && m.active.value.id == id && m.active.value.mode.Legacy? && m.active.value.target[..6] == prefix
  }

  predicate HeardBefore(legacy: seq<LegacyMark>, id: nat, prefix: seq<byte>, n: nat) {
    exists i | 0 <= i < n && i < |legacy| :: HeardFor(legacy[i], id, prefix)
  }

  predicate OwnResponses(legacy: seq<LegacyMark>) {
    forall j | 0 <= j < |legacy| && legacy[j].CompletedBy? :: HeardBefore(legacy, legacy[j].id, legacy[j].prefix, j)
  }

  predicate LegacyInv(s: System) {
    && OwnResponses(s.legacy)
    && (s.reader.FinishOne? && s.reader.completion.LegacyResult? ==> HeardBefore(s.legacy, s.reader.id, s.reader.completion.prefix, |s.legacy|))
    && !(s.reader.FinishReset? && s.reader.completion.LegacyResult?)
  }

  lemma HeardLonger(legacy: seq<LegacyMark>, m: LegacyMark, id: nat, prefix: seq<byte>, n: nat)
    requires HeardBefore(legacy, id, prefix, n)
    ensures HeardBefore(legacy + [m], id, prefix, n)
  {
    var i :| 0 <= i < n && i < |legacy| && HeardFor(legacy[i], id, prefix);
    assert (legacy + [m])[i] == legacy[i];
  }

  lemma OwnLonger(legacy: seq<LegacyMark>, m: LegacyMark)
    requires OwnResponses(legacy) && (m.CompletedBy? ==> HeardBefore(legacy, m.id, m.prefix, |legacy|))
    ensures OwnResponses(legacy + [m])
  {
    var all := legacy + [m];
    forall j | 0 <= j < |all| && all[j].CompletedBy? ensures HeardBefore(all, all[j].id, all[j].prefix, j) {
      if j < |legacy| {
        HeardLonger(legacy, m, legacy[j].id, legacy[j].prefix, j);
      } else {
        HeardLonger(legacy, m, m.id, m.prefix, |legacy|);
      }
    }
  }

  lemma FinishLegacy(s: System, id: nat, c: Completion)
    requires OwnResponses(s.legacy) && (c.LegacyResult? ==> HeardBefore(s.legacy, id, c.prefix, |s.legacy|))
    ensures OwnResponses(Finish(s, id, c).legacy)
  {
    hide OwnResponses, HeardBefore;
    if c.LegacyResult? {
      OwnLonger(s.legacy, CompletedBy(id, c.prefix));
    }
  }

  lemma ActedLegacy(s: System)
    requires LegacyInv(s) && s.reader.Act?
    ensures LegacyInv(Acted(s))
  {
    if s.reader.frame.LegacyResponse? && s.reader.frame.parsed {
      var m := Heard(s.reader.frame.prefix, s.arbiter.telemetry);
      OwnLonger(s.legacy, m);
      var all := s.legacy + [m];
      assert all[|s.legacy|] == m;
      hide OwnResponses;
    }
  }

  lemma SteppedLegacy(s: System, writeOk: bool)
    requires LegacyInv(s)
    ensures LegacyInv(Stepped(s, writeOk))
  {
    hide OwnResponses, HeardBefore, Finish, Acted, FinishPath;
    match s.reader
    case Act(_, _, _) => ActedLegacy(s);
    case FinishOne(id, c) => FinishLegacy(s, id, c);
    case EndTelemetryOf(id) => FinishLegacy(s, id, Failed(Disconnected));
    case FinishReset(id, c) => PathLegacy(s, id, c);
    case EndResetOf(id) => PathLegacy(s, id, Failed(Disconnected));
    case _ =>
  }

  lemma PathLegacy(s: System, id: nat, c: Completion)
    ensures FinishPath(s, id, c).legacy == s.legacy
  {
  }

  lemma NextLegacy(s: System, e: Event)
    requires LegacyInv(s) && Enabled(s, e)
    ensures LegacyInv(Next(s, e))
  {
    hide OwnResponses, HeardBefore, Stepped, Finish, FinishPath;
    match e
    case Abort(id, why) =>
      FinishLegacy(s, id, Failed(why));
      AbortReader(s, id, Failed(why));
    case AbortReset(id, why) =>
      PathLegacy(s, id, Failed(why));
      AbortReader(s, id, Failed(why));
    case Step(writeOk) => SteppedLegacy(s, writeOk);
    case _ =>
  }

  lemma AbortReader(s: System, id: nat, c: Completion)
    ensures Finish(s, id, c).reader == s.reader && FinishPath(s, id, c).reader == s.reader
    ensures !c.LegacyResult? ==> Finish(s, id, c).legacy == s.legacy
  {
  }

  ghost predicate Inv(s: System) {
    OnePerRequest(s) && UnsupportedMeansLegacy(s) && TagInv(s) && ReadInPast(s) && ReaderKnows(s) && LegacyInv(s)
  }

  /** The request the reader holds on to has been issued. */
  predicate ReaderKnows(s: System) {
    && (s.reader.WriteLegacy? || s.reader.FellBack? ==> s.reader.id < s.issued)
    && (s.reader.Act? && s.reader.request.Some? ==> s.reader.request.value < s.issued)
  }

  lemma ReaderStays(s: System, e: Event)
    requires TagInv(s) && ReadInPast(s) && ReaderKnows(s) && Enabled(s, e)
    ensures ReadInPast(Next(s, e)) && ReaderKnows(Next(s, e))
  {
    hide Rested, Faithful, Remembered, TagRecorded;
  }

  lemma IssuedTags(s: System, e: Event)
    requires TagInv(s) && (e.Request? || e.Reset?)
    ensures TagInv(Next(s, e))
  {
    hide Rested, Faithful;
    SameTable(s, Next(s, e));
  }

  lemma NextTags(s: System, e: Event)
    requires TagInv(s) && ReadInPast(s) && ReaderKnows(s) && Enabled(s, e)
    ensures TagInv(Next(s, e))
  {
    hide Rested, Faithful, Remembered, Stepped, Finish;
    match e
    case Request(_) => IssuedTags(s, e);
    case Reset(_) => IssuedTags(s, e);
    case Abort(id, why) => FinishTags(s, id, Failed(why));
    case Step(writeOk) => SteppedTags(s, writeOk);
    case StartSession => NoMarks(Next(s, e));
    case _ => SameTable(s, Next(s, e));
  }

  lemma NoMarks(s: System)
    requires s.marks == []
    ensures Rested(s.marks) && Faithful(s.marks) && Remembered(s)
  {
  }

  predicate IsRun(s: System, events: seq<Event>, t: System)
    decreases |events|
  {
    if events == [] then s == t else Enabled(s, events[0]) && IsRun(Next(s, events[0]), events[1..], t)
  }

  /**
   Whatever the order of callers, timers, disconnects, cancellations and the reader's sections: the slots exclude
   each other, every request is completed exactly once, and tags are adopted and answered as promised.
   */
  lemma {:induction false} RunKeeps(s: System, events: seq<Event>, t: System)
    requires Inv(s) && IsRun(s, events, t)
    ensures Inv(t)
    decreases |events|
  {
    hide Next, Enabled, OnePerRequest, UnsupportedMeansLegacy, TagInv, ReadInPast, ReaderKnows, LegacyInv;
    if events != [] {
      NextPlaces(s, events[0]);
      UnsupportedStays(s, events[0]);
      NextTags(s, events[0]);
      ReaderStays(s, events[0]);
      NextLegacy(s, events[0]);
      RunKeeps(Next(s, events[0]), events[1..], t);
    }
  }

  function Start(now: int): System {
    System(Arbiter(None, None, Unknown, map[]), NoSession, [], map[], 0, now, [], [])
  }

  /** From an idle adapter: when nothing is left in a slot or on its way, every request issued has its one completion. */
  lemma EveryRequestCompletes(now: int, events: seq<Event>, t: System, id: nat)
    requires IsRun(Start(now), events, t) && Free(t.arbiter) && t.pending == [] && id < t.issued
    ensures id in t.channels && |t.channels[id]| == 1
    ensures Rested(t.marks) && Faithful(t.marks) && OwnResponses(t.legacy)
  {
    hide Next, Enabled, IsRun;
    assert Inv(Start(now));
    RunKeeps(Start(now), events, t);
    assert Place(t, id);
  }
}

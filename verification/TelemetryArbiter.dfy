/** The arbiter between telemetry requests and path resets: one slot each, a tag table and a probed capability. */
module TelemetryArbiter {
  import opened Common

  const TAG_RETENTION: nat := 45 * SECOND
  const PREFIX_LENGTH: nat := 6

  type PublicKey = k: seq<byte> | |k| == 32 witness seq(32, _ => 0)

  datatype Mode = Legacy | Binary

  datatype Capability = Unknown | Supported | Unsupported

  /** Requests of both kinds are numbered as they are issued; the number stands for the pointer the source compares. */
  datatype Request = Request(id: nat, target: PublicKey, mode: Mode, tag: nat, tagKnown: bool, awaitingContact: bool, fellBack: bool)

  datatype ResetRequest = ResetRequest(id: nat, target: PublicKey)

  datatype Arbiter = Arbiter(
    telemetry: Option<Request>,
    pathReset: Option<ResetRequest>,
    capability: Capability,
    expired: map<nat, int>)

  predicate Free(a: Arbiter) {
    a.telemetry.None? && a.pathReset.None?
  }

  predicate Current(a: Arbiter, id: nat) {
    a.telemetry.Some? && a.telemetry.value.id == id
  }

  predicate CurrentReset(a: Arbiter, id: nat) {
    a.pathReset.Some? && a.pathReset.value.id == id
  }

  predicate Tagged(r: Request) {
    r.mode.Binary? && r.tagKnown
  }

  function Requested(a: Arbiter, id: nat, target: PublicKey): Arbiter {
    a.(telemetry := Some(Request(id, target, if a.capability.Unsupported? then Legacy else Binary, 0, false, false, false)))
  }

  function ResetRequested(a: Arbiter, id: nat, target: PublicKey): Arbiter {
    a.(pathReset := Some(ResetRequest(id, target)))
  }

  function Awaiting(a: Arbiter, id: nat): Arbiter {
    if Current(a, id) then a.(telemetry := Some(a.telemetry.value.(awaitingContact := true))) else a
  }

  function Snapshotted(a: Arbiter, id: nat): Arbiter {
    if Current(a, id) && a.telemetry.value.awaitingContact
    then a.(telemetry := Some(a.telemetry.value.(awaitingContact := false))) else a
  }

  /** Finishing frees the slot of the request it was started for and no other, and remembers the tag. */
  function Finished(a: Arbiter, id: nat, now: int): Arbiter {
    if !Current(a, id) then a else
      var r := a.telemetry.value;
      a.(telemetry := None, expired := if Tagged(r) then a.expired[r.tag := now + TAG_RETENTION] else a.expired)
  }

  function ResetFinished(a: Arbiter, id: nat): Arbiter {
    if CurrentReset(a, id) then a.(pathReset := None) else a
  }

  function Pruned(expired: map<nat, int>, now: int): map<nat, int> {
    map t | t in expired && expired[t] > now :: expired[t]
  }

  /** What accepting a send does: a binary request adopts the tag unless a finished request still owns it. */
  function SentRecorded(a: Arbiter, tag: nat, now: int): (Arbiter, Option<nat>) {
    if a.telemetry.None? || a.telemetry.value.mode.Legacy? then (a, None) else
      var kept := Pruned(a.expired, now);
      if tag in kept then (a.(expired := kept), Some(a.telemetry.value.id))
      else (a.(expired := kept, capability := Supported, telemetry := Some(a.telemetry.value.(tag := tag, tagKnown := true))), None)
  }

  function FallenBack(a: Arbiter, id: nat): Arbiter {
    if !Current(a, id) then a else
      a.(capability := Unsupported, telemetry := Some(a.telemetry.value.(mode := Legacy, tagKnown := false, fellBack := true)))
  }

  /** The request a tagged response belongs to. */
  function Answered(a: Arbiter, tag: nat, receivedAt: int): (Arbiter, Option<nat>) {
    var kept := Pruned(a.expired, receivedAt);
    var owner := if a.telemetry.Some? && Tagged(a.telemetry.value) && a.telemetry.value.tag == tag && tag !in kept
                 then Some(a.telemetry.value.id) else None;
    (a.(expired := kept), owner)
  }

  datatype Verdict = Ignored | Mismatched(id: nat) | Accepted(id: nat)

  function LegacyAnswered(a: Arbiter, prefix: seq<byte>): Verdict {
    if a.telemetry.None? || !a.telemetry.value.mode.Legacy? then Ignored
    else if prefix != a.telemetry.value.target[..PREFIX_LENGTH] then Mismatched(a.telemetry.value.id)
    else Accepted(a.telemetry.value.id)
  }

  function SessionStarted(a: Arbiter): Arbiter {
    a.(capability := Unknown, expired := map[])
  }

  /** The guarded fields; every method is one section under the lock. */
  class Arbitration {
    var telemetry: Option<Request>
    var pathReset: Option<ResetRequest>
    var capability: Capability
    var expired: map<nat, int>

    constructor ()
      ensures View() == Arbiter(None, None, Unknown, map[])
    {
      telemetry, pathReset, capability, expired := None, None, Unknown, map[];
    }

    ghost function View(): Arbiter
      reads this
    {
      Arbiter(telemetry, pathReset, capability, expired)
    }

    method RequestTelemetry(id: nat, target: PublicKey, ready: bool) returns (ok: bool)
      modifies this`telemetry
      ensures ok <==> Free(old(View())) && ready
      ensures View() == if ok then Requested(old(View()), id, target) else old(View())
    {
      if telemetry.Some? || pathReset.Some? || !ready {
        return false;
      }
      var mode := if capability == Unsupported then Legacy else Binary;
      telemetry := Some(Request(id, target, mode, 0, false, false, false));
      ok := true;
    }

    method RequestReset(id: nat, target: PublicKey, ready: bool) returns (ok: bool)
      modifies this`pathReset
      ensures ok <==> Free(old(View())) && ready
      ensures View() == if ok then ResetRequested(old(View()), id, target) else old(View())
    {
      if telemetry.Some? || pathReset.Some? || !ready {
        return false;
      }
      pathReset := Some(ResetRequest(id, target));
      ok := true;
    }

    method AwaitContact(id: nat)
      modifies this`telemetry
      ensures View() == Awaiting(old(View()), id)
    {
      if telemetry.Some? && telemetry.value.id == id {
        telemetry := Some(telemetry.value.(awaitingContact := true));
      }
    }

    method CompleteSnapshot(id: nat)
      modifies this`telemetry
      ensures View() == Snapshotted(old(View()), id)
    {
      if telemetry.Some? && telemetry.value.id == id && telemetry.value.awaitingContact {
        telemetry := Some(telemetry.value.(awaitingContact := false));
      }
    }

    /** The winner sends the completion after leaving the lock. */
    method FinishTelemetry(id: nat, now: int) returns (won: bool)
      modifies this`telemetry, this`expired
      ensures won <==> Current(old(View()), id)
      ensures View() == Finished(old(View()), id, now)
    {
      if telemetry.None? || telemetry.value.id != id {
        return false;
      }
      if telemetry.value.mode == Binary && telemetry.value.tagKnown {
        expired := expired[telemetry.value.tag := now + TAG_RETENTION];
      }
      telemetry := None;
      won := true;
    }

    method FinishPathReset(id: nat) returns (won: bool)
      modifies this`pathReset
      ensures won <==> CurrentReset(old(View()), id)
      ensures View() == ResetFinished(old(View()), id)
    {
      if pathReset.None? || pathReset.value.id != id {
        return false;
      }
      pathReset := None;
      won := true;
    }

    method PruneExpired(now: int)
      modifies this`expired
      ensures expired == Pruned(old(expired), now)
    {
      var before := expired;
      var ahead := expired.Keys;
      while ahead != {}
        invariant ahead <= before.Keys
        invariant expired == map t | t in before && (t in ahead || before[t] > now) :: before[t]
      {
        var tag :| tag in ahead;
        if before[tag] <= now {
          expired := expired - {tag};
        }
        ahead := ahead - {tag};
      }
    }

    method RecordSent(tag: nat, now: int) returns (refused: Option<nat>)
      modifies this`telemetry, this`capability, this`expired
      ensures (View(), refused) == SentRecorded(old(View()), tag, now)
    {
      refused := None;
      if telemetry.Some? && telemetry.value.mode == Binary {
        PruneExpired(now);
        if tag in expired {
          return Some(telemetry.value.id);
        }
        telemetry := Some(telemetry.value.(tag := tag, tagKnown := true));
        capability := Supported;
      }
    }

    method FallBack(id: nat)
      modifies this`telemetry, this`capability
      ensures View() == FallenBack(old(View()), id)
    {
      if telemetry.Some? && telemetry.value.id == id {
        capability := Unsupported;
        telemetry := Some(telemetry.value.(mode := Legacy, tagKnown := false, fellBack := true));
      }
    }

    method MatchBinary(tag: nat, receivedAt: int) returns (owner: Option<nat>)
      modifies this`expired
      ensures (View(), owner) == Answered(old(View()), tag, receivedAt)
    {
      PruneExpired(receivedAt);
      if telemetry.None? || telemetry.value.mode != Binary || !telemetry.value.tagKnown || telemetry.value.tag != tag {
        return None;
      }
      if tag in expired {
        return None;
      }
      owner := Some(telemetry.value.id);
    }

    method MatchLegacy(prefix: seq<byte>) returns (v: Verdict)
      ensures v == LegacyAnswered(View(), prefix)
    {
      if telemetry.None? {
        return Ignored;
      }
      if telemetry.value.mode != Legacy {
        return Ignored;
      }
      if prefix != telemetry.value.target[..PREFIX_LENGTH] {
        return Mismatched(telemetry.value.id);
      }
      v := Accepted(telemetry.value.id);
    }

    method StartSession()
      modifies this`capability, this`expired
      ensures View() == SessionStarted(old(View()))
    {
      capability := Unknown;
      expired := map[];
    }
  }
}

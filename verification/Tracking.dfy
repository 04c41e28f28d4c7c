/** The tracking controller: its locked sections, each proved to be the step the recovery and schedule rules describe. */
module Tracking {
  import opened Common
  import opened RouteRecovery
  import S = TrackingSchedule

  const RECENT_POLLS: nat := 50

  datatype StartError = AlreadyActive | DifferentTarget

  datatype Outcome = Success | TimeoutOutcome | ErrorOutcome

  datatype TrackingPoll = TrackingPoll(requestAt: int, outcome: Outcome, seconds: int, route: RouteEvidence, mark: Label, failures: nat)

  /** What the history says about recovery: the event that is due, or the route taken during an episode. */
  datatype Label = NoLabel | Due(trace: Trace) | Observed(mode: RouteMode)

  function LabelFor(r: Recovery, e: RouteEvidence): Label {
    if !r.trace.NoTrace? then Due(r.trace)
    else if !r.episode || e.mode.UnknownRoute? then NoLabel
    else Observed(e.mode)
  }

  function Kept(polls: seq<TrackingPoll>): seq<TrackingPoll> {
    if |polls| > RECENT_POLLS then polls[|polls| - RECENT_POLLS..] else polls
  }

  /** The history keeps the last fifty polls. */
  lemma KeepsLatest(polls: seq<TrackingPoll>)
    ensures |Kept(polls)| == (if |polls| < 50 then |polls| else 50) && Kept(polls) == polls[|polls| - |Kept(polls)|..]
  {
  }

  /** The source's fields, with those of route recovery and of the schedule grouped into one record each. */
  class TrackingController {
    const policy: S.Policy
    const canReset: bool

    var active: bool
    var target: string
    var generation: nat
    var recovery: Recovery
    var schedule: S.Schedule
    var recentPolls: seq<TrackingPoll>

    predicate Current(key: string, run: nat)
      reads this
    {
      active && target == key && generation == run
    }

    constructor (policy: S.Policy, canReset: bool)
      ensures this.policy == S.Normalised(policy) && this.canReset == canReset
      ensures !active && recovery == IDLE && schedule == S.Started(this.policy, false)
    {
      this.policy := S.Normalised(policy);
      this.canReset := canReset;
      active, target, generation, recentPolls := false, "", 0, [];
      recovery := IDLE;
      schedule := S.Schedule(S.UnknownMotion, S.UnknownMotion, 0, S.Normalised(policy).unknown / SECOND, 0, false, false);
    }

    method Start(key: string) returns (r: Option<StartError>)
      modifies this
      ensures r == if !old(active) then None else Some(if old(target) != key then DifferentTarget else AlreadyActive)
      ensures r.Some? ==> active && target == old(target) && generation == old(generation)
                          && recovery == old(recovery) && schedule == old(schedule) && recentPolls == old(recentPolls)
      ensures r.None? ==> Current(key, old(generation) + 1) && recovery == IDLE
                          && schedule == S.Started(policy, old(schedule).session) && recentPolls == []
    {
      if active {
        return Some(if target != key then DifferentTarget else AlreadyActive);
      }
      generation := generation + 1;
      recovery := IDLE;
      schedule := S.Schedule(S.UnknownMotion, S.UnknownMotion, 0, policy.unknown / SECOND, 0, schedule.session, false);
      active, target, recentPolls := true, key, [];
      r := None;
    }

    /** The sections of a stopped run find that they are no longer current. */
    method Stop()
      modifies this
      ensures !active && generation == old(generation) + 1 && recovery == IDLE && schedule.seconds == policy.unknown / SECOND
      ensures forall key: string, run: nat :: !Current(key, run)
    {
      generation := generation + 1;
      active, target := false, "";
      schedule := schedule.(seconds := policy.unknown / SECOND, pending := S.UnknownMotion, pendingCount := 0);
      recovery := IDLE;
    }

    // Route recovery

    method ClearStaleFailures()
      modifies this`recovery
      ensures recovery == ClearFailures(old(recovery))
    {
      recovery := recovery.(stale := NoFingerprint, failures := 0);
    }

    method ObservePostResetRoute(e: RouteEvidence)
      modifies this`recovery
      ensures recovery == ObservePostReset(old(recovery), e)
    {
      if recovery.episode && recovery.acknowledged && e.mode == Flood && e.source == ResponseSent {
        recovery := recovery.(flooded := true);
      }
    }

    method RearmForNewRoute(e: RouteEvidence)
      modifies this`recovery
      ensures recovery == Rearm(old(recovery), e)
    {
      if !recovery.episode || !recovery.acknowledged {
        return;
      }
      if FingerprintOf(e) == recovery.resetRoute && !recovery.flooded && recovery.updates == recovery.resetUpdates {
        return;
      }
      recovery := recovery.(episode := false, acknowledged := false);
      recovery := recovery.(resetRoute := NoFingerprint, resetUpdates := 0, flooded := false);
      ClearStaleFailures();
      recovery := recovery.(trace := NewRoute);
    }

    method NoteStaleFailure(e: RouteEvidence)
      modifies this`recovery
      ensures recovery == Note(old(recovery), e)
    {
      var fingerprint := FingerprintOf(e);
      if fingerprint == NoFingerprint {
        ClearStaleFailures();
        return;
      }
      if recovery.stale != fingerprint {
        recovery := recovery.(stale := fingerprint, failures := 1);
      } else {
        recovery := recovery.(failures := recovery.failures + 1);
      }
    }

    /** The first locked section after a failed poll; the answer tells the poller to send a reset. */
    method RecoverStaleRoute(key: string, run: nat, timeout: bool, cancelled: bool, e: RouteEvidence) returns (request: bool)
      requires !recovery.requested
      modifies this`recovery
      ensures recovery == if Current(key, run) then TimedOut(old(recovery), timeout, canReset, cancelled, e) else old(recovery)
      ensures request == recovery.requested
    {
      request := false;
      if !Current(key, run) {
        return;
      }
      if !timeout || !canReset || !Candidate(e) {
        ObservePostResetRoute(e);
        ClearStaleFailures();
        return;
      }
      RearmForNewRoute(e);
      NoteStaleFailure(e);
      recovery := recovery.(confirmed := recovery.confirmed + 1);
      if recovery.failures < THRESHOLD || cancelled {
        return;
      }
      if recovery.episode {
        if recovery.acknowledged || recovery.failures % THRESHOLD != 0 {
          return;
        }
      } else {
        recovery := recovery.(episode := true, attempts := 0);
      }
      recovery := recovery.(attempts := recovery.attempts + 1, requested := true, resets := recovery.resets + 1);
      request := true;
    }

    /** The second locked section, when the Companion has answered. */
    method FinishReset(key: string, run: nat, ok: bool)
      modifies this`recovery
      ensures recovery == if Current(key, run) then ResetAnswered(old(recovery), ok) else old(recovery)
    {
      if !Current(key, run) {
        return;
      }
      recovery := recovery.(requested := false);
      if !ok {
        recovery := recovery.(trace := ResetFailed);
        return;
      }
      recovery := recovery.(acknowledged := true, resetRoute := recovery.stale, resetUpdates := recovery.updates);
      recovery := recovery.(flooded := false, trace := ResetAcknowledged);
    }

    method EstablishRoute(e: RouteEvidence)
      modifies this`recovery
      ensures recovery == Establish(old(recovery), e)
    {
      var fingerprint := FingerprintOf(e);
      if fingerprint == NoFingerprint {
        return;
      }
      if fingerprint != recovery.route {
        recovery := recovery.(route := fingerprint, routeGeneration := recovery.routeGeneration + 1);
      }
      if recovery.episode {
        recovery := recovery.(episode := false, acknowledged := false, resetRoute := NoFingerprint, resetUpdates := 0, flooded := false);
      }
    }

    method HandlePathUpdated(key: string)
      modifies this`recovery
      ensures recovery == if active && target == key then PathUpdated(old(recovery)) else old(recovery)
    {
      if active && target == key {
        recovery := recovery.(updates := recovery.updates + 1);
      }
    }

    // Schedule

    method SetMotion(m: S.Motion)
      modifies this`schedule
      ensures schedule == S.SetMotion(old(schedule), m)
    {
      schedule := schedule.(motion := m, pending := S.UnknownMotion, pendingCount := 0);
    }

    method ApplyMotion(candidate: S.Motion)
      modifies this`schedule
      ensures schedule == S.ApplyMotion(old(schedule), candidate)
    {
      if schedule.motion == candidate {
        schedule := schedule.(pending := S.UnknownMotion, pendingCount := 0);
        return;
      }
      if schedule.motion == S.UnknownMotion {
        SetMotion(candidate);
        return;
      }
      if schedule.pending != candidate {
        schedule := schedule.(pending := candidate, pendingCount := 1);
        return;
      }
      schedule := schedule.(pendingCount := schedule.pendingCount + 1);
      if schedule.pendingCount >= 2 {
        SetMotion(candidate);
      }
    }

    method FailureInterval(f: S.Failure) returns (next: int)
      ensures next == S.FailureInterval(policy, schedule, f)
    {
      if schedule.session && !f.Adapter? {
        return S.IntervalFor(policy, schedule.motion);
      }
      next := schedule.seconds * SECOND;
      if schedule.failures == 1 {
        next := Max(policy.unknown, next);
      } else {
        next := next * 2;
      }
      if next > policy.maximumBackoff {
        next := policy.maximumBackoff;
      }
      next := Max(next, policy.minimum);
    }

    /** The caller may be a session that takes a running poll loop over; the answer says whether the loop is woken. */
    method SetControlSource(managed: bool) returns (woken: bool)
      modifies this`schedule
      ensures active ==> (schedule, woken) == S.TakenOver(policy, old(schedule), managed)
      ensures !active ==> schedule == old(schedule).(session := managed) && !woken
    {
      woken := false;
      if schedule.session == managed {
        return;
      }
      schedule := schedule.(session := managed);
      if !managed || !active || schedule.adapterLost {
        return;
      }
      schedule := schedule.(seconds := S.IntervalFor(policy, schedule.motion) / SECOND);
      woken := true;
    }

    // Recording a poll

    method AppendPoll(poll: TrackingPoll)
      modifies this`recentPolls
      ensures recentPolls == Kept(old(recentPolls) + [poll]) && |recentPolls| <= Max(|old(recentPolls)|, RECENT_POLLS)
    {
      recentPolls := recentPolls + [poll];
      if |recentPolls| > RECENT_POLLS {
        recentPolls := recentPolls[|recentPolls| - RECENT_POLLS..];
      }
    }

    /** Consumes the event that is due. */
    method TakeLabel(e: RouteEvidence) returns (mark: Label)
      modifies this`recovery
      ensures mark == LabelFor(old(recovery), e) && recovery == Recorded(old(recovery))
    {
      if recovery.trace != NoTrace {
        mark := Due(recovery.trace);
        recovery := recovery.(trace := NoTrace);
        return;
      }
      if !recovery.episode {
        return NoLabel;
      }
      mark := if e.mode == UnknownRoute then NoLabel else Observed(e.mode);
    }

    method RecordSuccess(key: string, run: nat, e: RouteEvidence, fix: S.Fix, requestAt: int)
      modifies this`recovery, this`schedule, this`recentPolls
      ensures recovery == if Current(key, run) then Succeeded(old(recovery), e) else old(recovery)
      ensures schedule == if Current(key, run) then S.Succeeded(policy, old(schedule), fix) else old(schedule)
      ensures recentPolls == if !Current(key, run) then old(recentPolls)
                             else Kept(old(recentPolls) + [TrackingPoll(requestAt, Success, schedule.seconds, e, LabelFor(old(recovery), e), 0)])
    {
      hide Establish, S.IntervalFor, S.Classify, Kept;
      if !Current(key, run) {
        return;
      }
      schedule := schedule.(failures := 0, adapterLost := false);
      ClearStaleFailures();
      match fix {
        case Unusable => SetMotion(S.UnknownMotion);
        case Baseline => SetMotion(S.UnknownMotion);
        case Rejected =>
        case Moved(speed) => ApplyMotion(S.Classify(policy, speed));
      }
      schedule := schedule.(seconds := S.IntervalFor(policy, schedule.motion) / SECOND);
      var mark := TakeLabel(e);
      EstablishRoute(e);
      AppendPoll(TrackingPoll(requestAt, Success, schedule.seconds, e, mark, schedule.failures));
    }

    method RecordFailure(key: string, run: nat, e: RouteEvidence, f: S.Failure, outcome: Outcome, requestAt: int)
      modifies this`recovery, this`schedule, this`recentPolls
      ensures recovery == if Current(key, run) then Recorded(old(recovery)) else old(recovery)
      ensures schedule == if Current(key, run) then S.Failed(policy, old(schedule), f) else old(schedule)
      ensures recentPolls == if !Current(key, run) then old(recentPolls)
                             else Kept(old(recentPolls) + [TrackingPoll(requestAt, outcome, schedule.seconds, e, LabelFor(old(recovery), e), schedule.failures)])
    {
      if !Current(key, run) {
        return;
      }
      schedule := schedule.(failures := schedule.failures + 1, adapterLost := f == S.Adapter(true));
      var next := FailureInterval(f);
      schedule := schedule.(seconds := next / SECOND);
      var mark := TakeLabel(e);
      AppendPoll(TrackingPoll(requestAt, outcome, schedule.seconds, e, mark, schedule.failures));
    }
  }
}

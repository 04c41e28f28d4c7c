/** The module itself: a configuration, its state and the state file, changed section by section under one lock. */
module HomeAutoModule {
  import opened Common
  import opened HomeAutoSession
  import L = HomeAutoLaws

  class Module {
    var cfg: Config
    var s: Session
    var disk: Session
    ghost var calls: seq<L.Call>

    ghost function View(): L.System
      reads this
    {
      L.System(cfg, s, disk, calls)
    }

    constructor (cfg: Config)
      ensures View() == L.System(cfg, NEW, NEW, [])
    {
      this.cfg, s, disk, calls := cfg, NEW, NEW, [];
    }

    method Persist()
      modifies this`disk
      ensures disk == Saved(s)
    {
      disk := s.(startCandidate := None, stopCandidate := None, retryClass := None, facts := map[]);
    }

    method MarkDegraded()
      modifies this`s, this`disk
      ensures s == Blocked(old(s)) && disk == Saved(s)
    {
      s := s.(blocked := true);
      s := s.(state := Degraded, cooldownUntil := None, retryClass := None);
      Persist();
    }

    method ConsumePosition(p: Position)
      modifies this`s
      ensures s == Consumed(cfg, old(s), p)
    {
      if !cfg.enabled || cfg.mode == Off || p.node == "" || p.node !in cfg.tracked {
        return;
      }
      var fact := Fact(false, false, p.at);
      if p.node in s.facts {
        fact := s.facts[p.node];
        if p.attested && p.at <= fact.lastSeenAt {
          return;
        }
      }
      var had, wasInside := fact.hasPosition, fact.inside;
      fact := fact.(lastSeenAt := p.at);
      s := s.(gpsNode := p.node);
      if p.placement != Inside && p.placement != Outside {
        s := s.(facts := s.facts[p.node := fact]);
        return;
      }
      var inside := p.placement == Inside;
      if had {
        if wasInside && !inside {
          s := s.(startCandidate := Some(Candidate(p.node, p.device, p.at, LEFT_HOME, p.startKey)));
          s := s.(stopCandidate := None);
        }
        if !wasInside && inside {
          s := s.(stopCandidate := Some(Candidate(p.node, p.device, p.at, CAME_HOME, p.stopKey)));
          s := s.(startCandidate := None);
        }
      }
      s := s.(facts := s.facts[p.node := fact.(hasPosition := true, inside := inside)]);
    }

    method PromotePending()
      modifies this`s
      ensures s == Promoted(old(s))
    {
      if s.pending.None? {
        return;
      }
      var candidate := FromPending(s.pending.value);
      if s.pending.value.action == StartAction {
        s := s.(startCandidate := Some(candidate), stopCandidate := None);
      } else {
        s := s.(stopCandidate := Some(candidate), startCandidate := None);
      }
    }

    /** The doubling loop of the retry delay. */
    static method Doubled(failures: nat) returns (delay: nat)
      ensures delay == Doubling(failures)
    {
      delay := RETRY_COOLDOWN;
      if failures <= 1 {
        return;
      }
      var i := 1;
      while i < failures && i < 4
        invariant 1 <= i <= 4 && i <= failures
        invariant delay == [1, 2, 4, 8][i - 1] * RETRY_COOLDOWN
      {
        delay := delay * 2;
        i := i + 1;
      }
      if delay > RETRY_COOLDOWN_MAX {
        delay := RETRY_COOLDOWN_MAX;
      }
    }

    /** Whether anything is to be tried; the candidate is then in place. */
    method Decide(now: int, trigger: Trigger) returns (action: Option<Action>)
      modifies this`s
      ensures Decided(cfg, old(s), now, trigger) == match action case None => Rest(s) case Some(StartAction) => TryStart(s) case Some(StopAction) => TryStop(s)
    {
      hide Bypasses, IdleStop, Promoted;
      if !cfg.enabled || cfg.mode == Off {
        s := s.(state := Disabled);
        return None;
      }
      if !cfg.valid {
        s := s.(state := Misconfigured);
        return None;
      }
      if s.state == Degraded && s.blocked {
        return None;
      }
      if s.cooldownUntil.Some? && now < s.cooldownUntil.value {
        if Bypasses(s, now, trigger) {
          s := s.(cooldownUntil := None);
        } else {
          s := s.(state := Cooldown);
          return None;
        }
      }
      action := DecideWithoutCooldown(now);
    }

    method DecideWithoutCooldown(now: int) returns (action: Option<Action>)
      modifies this`s
      ensures DecideCalm(cfg, old(s), now) == match action case None => Rest(s) case Some(StartAction) => TryStart(s) case Some(StopAction) => TryStop(s)
    {
      hide IdleStop, Promoted;
      if s.decisionUntil.Some? && now < s.decisionUntil.value {
        s := s.(state := Cooldown);
        return None;
      }
      var hasSession := s.active != "";
      PromotePending();
      ActiveStays(old(s));
      if hasSession {
        if s.stopCandidate.None? && IdleStop(cfg, s, now) {
          var node := if s.trigger != "" then s.trigger else if s.gpsNode != "" then s.gpsNode else "unknown";
          s := s.(stopCandidate := Some(Candidate(node, "", now, IDLE, "")));
        }
        if s.stopCandidate.Some? {
          if now - s.stopCandidate.value.at < cfg.stopDebounce {
            s := s.(state := StopPending);
            return None;
          }
          if cfg.mode == Observe {
            s := s.(state := Active);
            return None;
          }
          return Some(StopAction);
        }
        s := s.(state := Active);
        return None;
      }
      if s.startCandidate.Some? {
        if now - s.startCandidate.value.at < cfg.startDebounce {
          s := s.(state := StartPending);
          return None;
        }
        if cfg.mode == Observe {
          s := s.(state := ObserveReady);
          return None;
        }
        return Some(StartAction);
      }
      s := s.(state := if cfg.mode == Control then ControlReady else ObserveReady);
      action := None;
    }

    static lemma ActiveStays(s: Session)
      ensures Promoted(s).active == s.active
    {
    }

    method Evaluate(now: int, trigger: Trigger, access: Access, first: Answer, second: Answer)
      modifies this
      ensures View() == L.Round(old(View()), now, trigger, access, first, second)
    {
      hide Decided, StartAttempt, StopAttempt, StartAnswered, StopAnswered, Saved;
      ghost var before := View();
      NothingCalled(calls);
      var action := Decide(now, trigger);
      if action == Some(StartAction) && s.startCandidate.Some? {
        AttemptStart(now, access, first);
      } else if action == Some(StopAction) && s.stopCandidate.Some? {
        AttemptStop(now, access, first, second);
      } else {
        Persist();
      }
    }

    static lemma NothingCalled(calls: seq<L.Call>)
      ensures calls + [] == calls
    {
    }

    method AttemptStart(now: int, access: Access, answer: Answer)
      requires s.startCandidate.Some?
      modifies this`s, this`disk, this`calls
      ensures View() == L.StartRound(old(View()), old(s), now, access, answer)
    {
      hide Failed, Begun, Saved, PendingFor;
      NothingCalled(calls);
      ghost var before := s;
      var candidate := s.startCandidate.value;
      if candidate.key == "" {
        candidate := candidate.(key := cfg.keyOf(StartAction, candidate.node, candidate.at, candidate.reason));
      }
      s := s.(lastActionAt := Some(now));
      if candidate.key == s.lastStart {
        s := s.(startCandidate := None, pending := None, lastResult := Suppressed, state := ControlReady);
        Persist();
        return;
      }
      if !access.paired {
        s := s.(lastResult := Deferred, state := ControlReady);
        Persist();
        return;
      }
      if !access.client {
        s := s.(lastResult := ClientUnavailable);
        MarkDegraded();
        return;
      }
      s := s.(lastResult := Attempting, pending := Some(PendingFor(StartAction, candidate, now)), state := StartPending);
      Persist();
      assert StartAttempt(cfg, before, now, access) == Call(s, candidate);
      calls := calls + [L.StartCall(candidate.key, candidate.node, answer.Accepted?)];
      match answer {
        case Refused(error) => HandleCloudError(StartAction, error, now);
        case Accepted(sessionId, _) => CompleteStart(candidate, sessionId, now);
      }
    }

    method CompleteStart(candidate: Candidate, sessionId: string, now: int)
      modifies this`s, this`disk
      ensures s == Begun(cfg, old(s), candidate, sessionId, now) && disk == Saved(s)
    {
      s := s.(pending := None, startCandidate := None, stopCandidate := None, blocked := false, cooldownUntil := None, failures := 0);
      s := s.(retryClass := None, lastStart := candidate.key, active := sessionId, trigger := candidate.node);
      s := s.(lastResult := Started, decisionUntil := Some(now + DecisionCooldown(cfg)), state := Active);
      Persist();
    }

    method AttemptStop(now: int, access: Access, first: Answer, second: Answer)
      requires s.stopCandidate.Some?
      modifies this`s, this`disk, this`calls
      ensures View() == L.StopRound(old(View()), old(s), now, access, first, second)
    {
      hide Failed, Ended, Saved, PendingFor, StopAnswered, L.StopCalls;
      NothingCalled(calls);
      ghost var before := s;
      var candidate := s.stopCandidate.value;
      if candidate.key == "" {
        candidate := candidate.(key := cfg.keyOf(StopAction, candidate.node, candidate.at, candidate.reason));
      }
      s := s.(lastActionAt := Some(now));
      if candidate.key == s.lastStop {
        s := s.(stopCandidate := None, pending := None, lastResult := Suppressed, state := ControlReady);
        Persist();
        return;
      }
      if !access.paired {
        s := s.(lastResult := Deferred, state := ControlReady);
        Persist();
        return;
      }
      if !access.client {
        s := s.(lastResult := ClientUnavailable);
        MarkDegraded();
        return;
      }
      s := s.(lastResult := Attempting, pending := Some(PendingFor(StopAction, candidate, now)), state := StopPending);
      Persist();
      assert StopAttempt(cfg, before, now, access) == Call(s, candidate);
      SettleStop(candidate, first, second, now);
    }

    /** The stop call and, when its session ID is what the cloud refuses, the call without one. */
    method SettleStop(candidate: Candidate, first: Answer, second: Answer, now: int)
      modifies this`s, this`disk, this`calls
      ensures s == StopAnswered(cfg, old(s), candidate, first, second, now) && disk == Saved(s)
      ensures calls == old(calls) + L.StopCalls(old(s), candidate, first)
    {
      hide Failed, Ended;
      calls := calls + [L.StopCall(candidate.key, candidate.node, s.active)];
      match first {
        case Accepted(_, closed) => CompleteStop(candidate, closed, now);
        case Refused(error) =>
          if error.alreadyStopped {
            CompleteStop(candidate, true, now);
            return;
          }
          if s.active == "" || !error.retryWithoutId {
            HandleCloudError(StopAction, error, now);
            return;
          }
          calls := calls + [L.StopCall(candidate.key, candidate.node, "")];
          match second {
            case Accepted(_, closed) => CompleteStop(candidate, closed, now);
            case Refused(again) =>
              if again.alreadyStopped {
                CompleteStop(candidate, true, now);
              } else {
                HandleCloudError(StopAction, again, now);
              }
          }
      }
    }

    method CompleteStop(candidate: Candidate, closed: bool, now: int)
      modifies this`s, this`disk
      ensures s == Ended(cfg, old(s), candidate, closed, now) && disk == Saved(s)
    {
      s := s.(pending := None, stopCandidate := None, startCandidate := None, blocked := false, cooldownUntil := None, failures := 0);
      s := s.(retryClass := None, lastStop := candidate.key, active := "", trigger := "", lastActionAt := Some(now));
      s := s.(lastResult := if closed then AlreadyClosed else Stopped);
      s := s.(decisionUntil := Some(now + DecisionCooldown(cfg)), state := ControlReady);
      Persist();
    }

    method HandleCloudError(action: Action, error: CloudError, now: int)
      modifies this`s, this`disk
      ensures s == Failed(old(s), action, error, now) && disk == Saved(s)
    {
      hide Delay, Restarted, NodeOf;
      s := s.(lastActionAt := Some(now), failures := s.failures + 1);
      if error.lifecycle.Some? {
        s := s.(pending := None, startCandidate := None, stopCandidate := None);
        s := s.(active := "", trigger := "", lastResult := Rejected(error.lifecycle.value));
        MarkDegraded();
        return;
      }
      if action == StartAction && error.alreadyActive {
        if error.sessionId != "" {
          var node := NodeOf(s);
          s := s.(pending := None, startCandidate := None, stopCandidate := None, blocked := false, cooldownUntil := None);
          s := s.(retryClass := None, lastResult := AlreadyActiveSynced, active := error.sessionId, state := Active);
          if node != "" {
            s := s.(trigger := node);
          }
          Persist();
          return;
        }
        s := s.(pending := None, startCandidate := None, stopCandidate := None, lastResult := AlreadyActiveConflict);
        MarkDegraded();
        return;
      }
      if action == StartAction && error.missingSessionId {
        var delay := Delay(StartAction, Generic, s.failures, error.jitter);
        s := s.(startCandidate := Some(Restarted(s, now)), pending := None);
        s := s.(stopCandidate := None, blocked := false, cooldownUntil := Some(now + delay), state := Cooldown);
        s := s.(retryClass := Some(StartMissingId), lastResult := MissingIdRetry);
        Persist();
        return;
      }
      if action == StopAction && error.stateMismatch {
        s := s.(pending := None, startCandidate := None, stopCandidate := None, lastResult := StateMismatch);
        MarkDegraded();
        return;
      }
      if error.retryable {
        var kind := if error.network then Network else Generic;
        var delay := Delay(action, kind, s.failures, error.jitter);
        s := s.(cooldownUntil := Some(now + delay), blocked := false, state := Cooldown);
        s := s.(retryClass := Some(kind), lastResult := RetryScheduled);
        Persist();
        return;
      }
      s := s.(lastResult := FailedForGood);
      MarkDegraded();
    }

    /** A new process over the same state file. */
    method Bootstrap(again: Config)
      modifies this
      ensures View() == L.Reopened(old(View()), again)
    {
      cfg := again;
      s := disk.(startCandidate := None, stopCandidate := None, retryClass := None, facts := map[]);
      if !cfg.startupReconcile {
        s := s.(active := "", trigger := "", pending := None, blocked := false);
      } else {
        ReconcileStartup();
      }
      Persist();
    }

    method ReconcileStartup()
      modifies this`s, this`disk
      ensures s == Reconciled(old(s))
    {
      if s.pending.Some? {
        var p := s.pending.value;
        if p.node == "" || p.key == "" {
          MarkDegraded();
          return;
        }
        if p.action == StartAction {
          if p.key == s.lastStart {
            s := s.(pending := None);
          } else {
            s := s.(startCandidate := Some(FromPending(p)), stopCandidate := None);
          }
        } else if s.active == "" || p.key == s.lastStop {
          s := s.(pending := None);
        } else {
          s := s.(stopCandidate := Some(FromPending(p)), startCandidate := None);
        }
      }
      if s.active != "" {
        if s.trigger == "" {
          MarkDegraded();
          return;
        }
        s := s.(state := Active);
        return;
      }
      if s.trigger != "" {
        MarkDegraded();
      }
    }

    method ResetDegraded()
      modifies this`s, this`disk
      ensures s == ResetByHand(old(s)) && disk == Saved(s)
    {
      s := s.(blocked := false, cooldownUntil := None, decisionUntil := None);
      s := s.(stopCandidate := None, startCandidate := None, pending := None, failures := 0, retryClass := None);
      if s.state == Degraded {
        s := s.(state := ControlReady);
      }
      Persist();
    }
  }
}

/** Starting and stopping a cloud session when a tracked node leaves or returns home, as functions of the module's state. */
module HomeAutoSession {
  import opened Common

  const RETRY_COOLDOWN: nat := 30 * SECOND
  const RETRY_COOLDOWN_MAX: nat := 240 * SECOND
  const BYPASS_MIN: nat := 5 * SECOND
  const FRESH_INSIDE_MAX: nat := 45 * SECOND

  datatype Mode = Off | Observe | Control

  datatype Action = StartAction | StopAction

  /** Keys of candidates that carry none are a function of what they describe. */
  datatype Config = Config(
    enabled: bool,
    mode: Mode,
    valid: bool,
    startupReconcile: bool,
    startDebounce: int,
    stopDebounce: int,
    idleTimeout: int,
    tracked: set<string>,
    keyOf: (Action, string, int, string) -> string)

  datatype ModuleState = Disabled | Misconfigured | ObserveReady | ControlReady | StartPending | Active | StopPending | Cooldown | Degraded

  datatype Candidate = Candidate(node: string, device: string, at: int, reason: string, key: string)

  datatype Pending = Pending(action: Action, node: string, device: string, reason: string, key: string, since: int)

  datatype RetryClass = Generic | Network | StartMissingId

  datatype Lifecycle = Revoked | TurnedOff | Replaced

  datatype Result =
    | NoResult
    | Suppressed
    | Deferred
    | ClientUnavailable
    | Attempting
    | Started
    | Stopped
    | AlreadyClosed
    | Rejected(lifecycle: Lifecycle)
    | AlreadyActiveSynced
    | AlreadyActiveConflict
    | MissingIdRetry
    | StateMismatch
    | RetryScheduled
    | FailedForGood

  datatype Fact = Fact(hasPosition: bool, inside: bool, lastSeenAt: int)

  datatype Session = Session(
    state: ModuleState,
    blocked: bool,
    active: string,
    trigger: string,
    pending: Option<Pending>,
    startCandidate: Option<Candidate>,
    stopCandidate: Option<Candidate>,
    lastStart: string,
    lastStop: string,
    cooldownUntil: Option<int>,
    decisionUntil: Option<int>,
    failures: nat,
    retryClass: Option<RetryClass>,
    lastActionAt: Option<int>,
    lastResult: Result,
    facts: map<string, Fact>,
    gpsNode: string)

  const NEW := Session(Disabled, false, "", "", None, None, None, "", "", None, None, 0, None, None, NoResult, map[], "")

  // Positions

  datatype Placement = NoFix | InvalidFix | StaleFix | NearBoundary | Inside | Outside

  /** An observation; attested ones come from the cloud and may arrive out of order. */
  datatype Position = Position(node: string, device: string, attested: bool, at: int, placement: Placement, startKey: string, stopKey: string)

  const LEFT_HOME := "tracked node moved outside home geofence"
  const CAME_HOME := "tracked node returned inside home geofence"
  const IDLE := "idle stop timeout elapsed without tracked-node updates"

  function Consumed(cfg: Config, s: Session, p: Position): Session {
    if !cfg.enabled || cfg.mode.Off? || p.node == "" || p.node !in cfg.tracked then s
    else if p.attested && p.node in s.facts && p.at <= s.facts[p.node].lastSeenAt then s
    else
      var before := if p.node in s.facts then s.facts[p.node] else Fact(false, false, p.at);
      var seen := before.(lastSeenAt := p.at);
      if !p.placement.Inside? && !p.placement.Outside? then s.(facts := s.facts[p.node := seen], gpsNode := p.node) else
        var inside := p.placement.Inside?;
        var t := s.(facts := s.facts[p.node := seen.(hasPosition := true, inside := inside)], gpsNode := p.node);
        if before.hasPosition && before.inside && !inside then
          t.(startCandidate := Some(Candidate(p.node, p.device, p.at, LEFT_HOME, p.startKey)), stopCandidate := None)
        else if before.hasPosition && !before.inside && inside then
          t.(stopCandidate := Some(Candidate(p.node, p.device, p.at, CAME_HOME, p.stopKey)), startCandidate := None)
        else t
  }

  // Decisions

  datatype Trigger = OnEvent | OnOther

  function Blocked(s: Session): Session {
    s.(state := Degraded, blocked := true, cooldownUntil := None, retryClass := None)
  }

  predicate InsideSince(s: Session, node: string, after: int, now: int) {
    && node != "" && node in s.facts && s.facts[node].hasPosition && s.facts[node].inside
    && s.facts[node].lastSeenAt > after && now - s.facts[node].lastSeenAt <= FRESH_INSIDE_MAX
  }

  /** A fresh position inside the geofence lets a stop that timed out be retried before its cooldown ends. */
  predicate Bypasses(s: Session, now: int, trigger: Trigger) {
    && trigger.OnEvent? && s.pending.Some? && s.pending.value.action.StopAction?
    && s.lastResult.RetryScheduled? && s.retryClass == Some(Network) && s.lastActionAt.Some?
    && now - s.lastActionAt.value >= BYPASS_MIN
    && InsideSince(s, if s.trigger != "" then s.trigger else s.pending.value.node, s.lastActionAt.value, now)
  }

  predicate IdleStop(cfg: Config, s: Session, now: int) {
    && s.trigger != "" && cfg.idleTimeout > 0 && s.trigger in s.facts
    && s.facts[s.trigger].hasPosition && s.facts[s.trigger].inside
    && now - s.facts[s.trigger].lastSeenAt >= cfg.idleTimeout
  }

  function FromPending(p: Pending): Candidate {
    Candidate(p.node, p.device, p.since, p.reason, p.key)
  }

  /** What is pending displaces whatever candidates positions have left since. */
  function Promoted(s: Session): Session {
    if s.pending.None? then s
    else if s.pending.value.action.StartAction? then s.(startCandidate := Some(FromPending(s.pending.value)), stopCandidate := None)
    else s.(stopCandidate := Some(FromPending(s.pending.value)), startCandidate := None)
  }

  datatype Decision = Rest(s: Session) | TryStart(s: Session) | TryStop(s: Session)

  function DecideActive(cfg: Config, s: Session, now: int): Decision {
    var node := if s.trigger != "" then s.trigger else if s.gpsNode != "" then s.gpsNode else "unknown";
    var t := if s.stopCandidate.None? && IdleStop(cfg, s, now) then s.(stopCandidate := Some(Candidate(node, "", now, IDLE, ""))) else s;
    if t.stopCandidate.None? then Rest(t.(state := Active))
    else if now - t.stopCandidate.value.at < cfg.stopDebounce then Rest(t.(state := StopPending))
    else if cfg.mode.Observe? then Rest(t.(state := Active))
    else TryStop(t)
  }

  function DecideInactive(cfg: Config, s: Session, now: int): Decision {
    if s.startCandidate.None? then Rest(s.(state := if cfg.mode.Control? then ControlReady else ObserveReady))
    else if now - s.startCandidate.value.at < cfg.startDebounce then Rest(s.(state := StartPending))
    else if cfg.mode.Observe? then Rest(s.(state := ObserveReady))
    else TryStart(s)
  }

  /** No retry is being waited for. */
  function DecideCalm(cfg: Config, s: Session, now: int): Decision {
    if s.decisionUntil.Some? && now < s.decisionUntil.value then Rest(s.(state := Cooldown))
    else if s.active != "" then DecideActive(cfg, Promoted(s), now)
    else DecideInactive(cfg, Promoted(s), now)
  }

  function Decided(cfg: Config, s: Session, now: int, trigger: Trigger): Decision {
    if !cfg.enabled || cfg.mode.Off? then Rest(s.(state := Disabled))
    else if !cfg.valid then Rest(s.(state := Misconfigured))
    else if s.state.Degraded? && s.blocked then Rest(s)
    else
      var cooling := s.cooldownUntil.Some? && now < s.cooldownUntil.value;
      if cooling && !Bypasses(s, now, trigger) then Rest(s.(state := Cooldown)) else
        DecideCalm(cfg, if cooling then s.(cooldownUntil := None) else s, now)
  }

  // Attempts

  datatype Access = Access(paired: bool, client: bool)

  datatype Attempt = NoCall(s: Session) | Call(s: Session, candidate: Candidate)

  function Keyed(cfg: Config, action: Action, c: Candidate): Candidate {
    if c.key == "" then c.(key := cfg.keyOf(action, c.node, c.at, c.reason)) else c
  }

  function PendingFor(action: Action, c: Candidate, now: int): Pending {
    Pending(action, c.node, c.device, c.reason, c.key, if c.at > now then now else c.at)
  }

  function StartAttempt(cfg: Config, s: Session, now: int, access: Access): Attempt
    requires s.startCandidate.Some?
  {
    var c := Keyed(cfg, StartAction, s.startCandidate.value);
    var t := s.(lastActionAt := Some(now));
    if c.key == s.lastStart then NoCall(t.(startCandidate := None, pending := None, lastResult := Suppressed, state := ControlReady))
    else if !access.paired then NoCall(t.(lastResult := Deferred, state := ControlReady))
    else if !access.client then NoCall(Blocked(t.(lastResult := ClientUnavailable)))
    else Call(t.(lastResult := Attempting, pending := Some(PendingFor(StartAction, c, now)), state := StartPending), c)
  }

  function StopAttempt(cfg: Config, s: Session, now: int, access: Access): Attempt
    requires s.stopCandidate.Some?
  {
    var c := Keyed(cfg, StopAction, s.stopCandidate.value);
    var t := s.(lastActionAt := Some(now));
    if c.key == s.lastStop then NoCall(t.(stopCandidate := None, pending := None, lastResult := Suppressed, state := ControlReady))
    else if !access.paired then NoCall(t.(lastResult := Deferred, state := ControlReady))
    else if !access.client then NoCall(Blocked(t.(lastResult := ClientUnavailable)))
    else Call(t.(lastResult := Attempting, pending := Some(PendingFor(StopAction, c, now)), state := StopPending), c)
  }

  // Answers

  /** What an error from the cloud can be recognised as; several may apply and the handler's order decides. */
  datatype CloudError = CloudError(
    lifecycle: Option<Lifecycle>,
    alreadyActive: bool,
    sessionId: string,
    missingSessionId: bool,
    stateMismatch: bool,
    alreadyStopped: bool,
    retryWithoutId: bool,
    retryable: bool,
    network: bool,
    jitter: byte)

  datatype Answer = Accepted(sessionId: string, closed: bool) | Refused(error: CloudError)

  function Doubling(failures: nat): nat {
    if failures <= 1 then RETRY_COOLDOWN
    else if failures == 2 then 2 * RETRY_COOLDOWN
    else if failures == 3 then 4 * RETRY_COOLDOWN
    else RETRY_COOLDOWN_MAX
  }

  function RetryDelay(action: Action, kind: RetryClass, failures: nat): nat {
    if action.StopAction? && kind.Network? then
      if failures <= 1 then 10 * SECOND else if failures == 2 then 20 * SECOND else if failures == 3 then 30 * SECOND
      else Doubling(failures - 2)
    else Doubling(failures)
  }

  /** Go's division rounds toward zero. */
  function Percent(base: nat, offset: int): int {
    if offset >= 0 then base * offset / 100 else -(base * -offset / 100)
  }

  function Jittered(base: nat, offset: int): int {
    Min(Max(base + Percent(base, offset), SECOND), RETRY_COOLDOWN_MAX)
  }

  function Delay(action: Action, kind: RetryClass, failures: nat, jitter: byte): int {
    Jittered(RetryDelay(action, kind, failures), jitter % 21 - 10)
  }

  function DecisionCooldown(cfg: Config): int {
    Min(Max(Max(cfg.startDebounce / 2, cfg.stopDebounce / 2), SECOND), 30 * SECOND)
  }

  function Begun(cfg: Config, s: Session, c: Candidate, sessionId: string, now: int): Session {
    s.(pending := None, startCandidate := None, stopCandidate := None, blocked := false, cooldownUntil := None, failures := 0,
       retryClass := None, lastStart := c.key, active := sessionId, trigger := c.node, lastResult := Started,
       decisionUntil := Some(now + DecisionCooldown(cfg)), state := Active)
  }

  function Ended(cfg: Config, s: Session, c: Candidate, closed: bool, now: int): Session {
    s.(pending := None, startCandidate := None, stopCandidate := None, blocked := false, cooldownUntil := None, failures := 0,
       retryClass := None, lastStop := c.key, active := "", trigger := "", lastActionAt := Some(now),
       lastResult := if closed then AlreadyClosed else Stopped,
       decisionUntil := Some(now + DecisionCooldown(cfg)), state := ControlReady)
  }

  function Forgotten(s: Session): Session {
    s.(pending := None, startCandidate := None, stopCandidate := None)
  }

  function NodeOf(s: Session): string {
    if s.startCandidate.Some? && s.startCandidate.value.node != "" then s.startCandidate.value.node
    else if s.pending.Some? && s.pending.value.action.StartAction? && s.pending.value.node != "" then s.pending.value.node
    else s.trigger
  }

  /** The candidate that takes the place of a start the cloud could not name a session for; its key is made afresh. */
  function Restarted(s: Session, now: int): Candidate {
    var p := if s.pending.Some? && s.pending.value.action.StartAction? then Some(s.pending.value) else None;
    var c := s.startCandidate;
    var node := if p.Some? && p.value.node != "" then p.value.node else if c.Some? && c.value.node != "" then c.value.node
                else if s.trigger != "" then s.trigger else if s.gpsNode != "" then s.gpsNode else "unknown";
    var device := if p.Some? && p.value.device != "" then p.value.device else if c.Some? then c.value.device else "";
    var reason := if c.Some? && c.value.reason != "" then c.value.reason else if p.Some? && p.value.reason != "" then p.value.reason else LEFT_HOME;
    Candidate(node, device, now, reason, "")
  }

  function Failed(s: Session, action: Action, e: CloudError, now: int): Session {
    var t := s.(lastActionAt := Some(now), failures := s.failures + 1);
    if e.lifecycle.Some? then
      Blocked(Forgotten(t).(active := "", trigger := "", lastResult := Rejected(e.lifecycle.value)))
    else if action.StartAction? && e.alreadyActive then
      if e.sessionId != "" then
        Forgotten(t).(active := e.sessionId, trigger := if NodeOf(t) != "" then NodeOf(t) else t.trigger, blocked := false,
                      cooldownUntil := None, retryClass := None, lastResult := AlreadyActiveSynced, state := Active)
      else Blocked(Forgotten(t).(lastResult := AlreadyActiveConflict))
    else if action.StartAction? && e.missingSessionId then
      t.(pending := None, startCandidate := Some(Restarted(t, now)), stopCandidate := None, blocked := false,
         cooldownUntil := Some(now + Delay(StartAction, Generic, t.failures, e.jitter)),
         retryClass := Some(StartMissingId), lastResult := MissingIdRetry, state := Cooldown)
    else if action.StopAction? && e.stateMismatch then Blocked(Forgotten(t).(lastResult := StateMismatch))
    else if e.retryable then
      var kind := if e.network then Network else Generic;
      t.(cooldownUntil := Some(now + Delay(action, kind, t.failures, e.jitter)), blocked := false,
         retryClass := Some(kind), lastResult := RetryScheduled, state := Cooldown)
    else Blocked(t.(lastResult := FailedForGood))
  }

  /** The start call's answer settles the attempt. */
  function StartAnswered(cfg: Config, s: Session, c: Candidate, a: Answer, now: int): Session {
    match a
    case Accepted(sessionId, _) => Begun(cfg, s, c, sessionId, now)
    case Refused(e) => Failed(s, StartAction, e, now)
  }

  /** A stop that the cloud refuses because of its session ID is asked once more without one. */
  predicate AskedAgain(s: Session, first: Answer) {
    first.Refused? && !first.error.alreadyStopped && s.active != "" && first.error.retryWithoutId
  }

  function StopAnswered(cfg: Config, s: Session, c: Candidate, first: Answer, second: Answer, now: int): Session {
    var a := if AskedAgain(s, first) then second else first;
    match a
    case Accepted(_, closed) => Ended(cfg, s, c, closed, now)
    case Refused(e) => if e.alreadyStopped then Ended(cfg, s, c, true, now) else Failed(s, StopAction, e, now)
  }

  // Restart, reset and overload

  /** What survives in the state file. */
  function Saved(s: Session): Session {
    s.(startCandidate := None, stopCandidate := None, retryClass := None, facts := map[])
  }

  function Reconciled(s: Session): Session {
    var p := s.pending;
    if p.Some? && (p.value.node == "" || p.value.key == "") then Blocked(s) else
      var t :=
        if p.None? then s
        else if p.value.action.StartAction? then
          if p.value.key == s.lastStart then s.(pending := None)
          else s.(startCandidate := Some(FromPending(p.value)), stopCandidate := None)
        else if s.active == "" || p.value.key == s.lastStop then s.(pending := None)
        else s.(stopCandidate := Some(FromPending(p.value)), startCandidate := None);
      if t.active != "" then (if t.trigger == "" then Blocked(t) else t.(state := Active))
      else if t.trigger != "" then Blocked(t)
      else t
  }

  function Restored(cfg: Config, disk: Session): Session {
    if cfg.startupReconcile then Reconciled(Saved(disk))
    else Saved(disk).(active := "", trigger := "", pending := None, blocked := false)
  }

  function ResetByHand(s: Session): Session {
    Forgotten(s).(blocked := false, cooldownUntil := None, decisionUntil := None, failures := 0, retryClass := None,
                  state := if s.state.Degraded? then ControlReady else s.state)
  }
}

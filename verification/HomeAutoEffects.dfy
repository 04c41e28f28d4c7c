/** What positions propose, when the cloud is called and what its answers do. */
module HomeAutoEffects {
  import opened Common
  import opened HomeAutoSession
  import opened HomeAutoLaws

  // Positions

  /** An observation the module takes notice of. */
  predicate Counts(cfg: Config, s: Session, p: Position) {
    && cfg.enabled && cfg.mode != Off && p.node != "" && p.node in cfg.tracked
    && !(p.attested && p.node in s.facts && p.at <= s.facts[p.node].lastSeenAt)
  }

  predicate WasInside(s: Session, node: string) {
    node in s.facts && s.facts[node].hasPosition && s.facts[node].inside
  }

  predicate WasOutside(s: Session, node: string) {
    node in s.facts && s.facts[node].hasPosition && !s.facts[node].inside
  }

  predicate Leaves(cfg: Config, s: Session, p: Position) {
    Counts(cfg, s, p) && WasInside(s, p.node) && p.placement == Outside
  }

  predicate Returns(cfg: Config, s: Session, p: Position) {
    Counts(cfg, s, p) && WasOutside(s, p.node) && p.placement == Inside
  }

  predicate Proposes(c: Option<Candidate>, p: Position, key: string) {
    c.Some? && c.value.node == p.node && c.value.device == p.device && c.value.at == p.at && c.value.key == key
  }

  /** Leaving home proposes a start and nothing else, coming home a stop and nothing else, and any other position neither. */
  lemma TransitionsPropose(cfg: Config, s: Session, p: Position)
    ensures var t := Consumed(cfg, s, p);
            && (Leaves(cfg, s, p) ==> t.stopCandidate == None && Proposes(t.startCandidate, p, p.startKey))
            && (Returns(cfg, s, p) ==> t.startCandidate == None && Proposes(t.stopCandidate, p, p.stopKey))
            && (!Leaves(cfg, s, p) && !Returns(cfg, s, p) ==> t.startCandidate == s.startCandidate && t.stopCandidate == s.stopCandidate)
            && SameCommitments(s, t) && t.state == s.state && t.blocked == s.blocked && t.cooldownUntil == s.cooldownUntil
  {
  }

  /** What is remembered of a node after an observation. */
  lemma PositionsAreRemembered(cfg: Config, s: Session, p: Position)
    ensures var t := Consumed(cfg, s, p);
            && (!Counts(cfg, s, p) ==> t == s)
            && (forall n | n != p.node :: (n in t.facts <==> n in s.facts) && (n in s.facts ==> t.facts[n] == s.facts[n]))
            && (Counts(cfg, s, p) ==>
                  && t.gpsNode == p.node && p.node in t.facts && t.facts[p.node].lastSeenAt == p.at
                  && (p.placement == Inside ==> WasInside(t, p.node)) && (p.placement == Outside ==> WasOutside(t, p.node))
                  && (p.placement != Inside && p.placement != Outside ==>
                        WasInside(t, p.node) == WasInside(s, p.node) && WasOutside(t, p.node) == WasOutside(s, p.node)))
  {
  }

  // When the cloud is called

  /** A stop that timed out may be retried early on an event when its node has since been seen inside, and recently. */
  predicate MayHurry(s: Session, now: int, trigger: Trigger) {
    && trigger == OnEvent && s.pending.Some? && s.pending.value.action == StopAction
    && s.lastResult == RetryScheduled && s.retryClass == Some(Network) && s.lastActionAt.Some?
    && var node := if s.trigger == "" then s.pending.value.node else s.trigger;
    && node != "" && WasInside(s, node)
    && var seen := s.facts[node].lastSeenAt;
    && s.lastActionAt.value + 5 * SECOND <= now && s.lastActionAt.value < seen && now <= seen + 45 * SECOND
  }

  predicate Awake(cfg: Config, s: Session, now: int, trigger: Trigger) {
    && cfg.enabled && cfg.mode != Off && cfg.valid && !(s.state == Degraded && s.blocked)
    && (s.cooldownUntil.Some? && now < s.cooldownUntil.value ==> MayHurry(s, now, trigger))
    && (s.decisionUntil.Some? ==> s.decisionUntil.value <= now)
  }

  /** The candidate that stands: what is pending if anything is. */
  function StandingStart(s: Session): Option<Candidate> {
    if s.pending.None? then s.startCandidate
    else if s.pending.value.action == StartAction then Some(FromPending(s.pending.value))
    else None
  }

  /** A stop also stands when the session's node has been seen inside and then not for the idle time. */
  function StandingStop(cfg: Config, s: Session, now: int): Option<Candidate> {
    if s.pending.Some? then (if s.pending.value.action == StopAction then Some(FromPending(s.pending.value)) else None)
    else if s.stopCandidate.Some? then s.stopCandidate
    else if cfg.idleTimeout > 0 && s.trigger != "" && WasInside(s, s.trigger) && s.facts[s.trigger].lastSeenAt + cfg.idleTimeout <= now
      then Some(Candidate(s.trigger, "", now, IDLE, ""))
    else None
  }

  function KeyOf(cfg: Config, action: Action, c: Candidate): string {
    if c.key == "" then cfg.keyOf(action, c.node, c.at, c.reason) else c.key
  }

  predicate CallsStart(cfg: Config, s: Session, now: int, trigger: Trigger, access: Access) {
    && Awake(cfg, s, now, trigger) && s.active == "" && cfg.mode == Control && access.paired && access.client
    && StandingStart(s).Some?
    && var c := StandingStart(s).value;
    && c.at + cfg.startDebounce <= now && KeyOf(cfg, StartAction, c) != s.lastStart
  }

  predicate CallsStop(cfg: Config, s: Session, now: int, trigger: Trigger, access: Access) {
    && Awake(cfg, s, now, trigger) && s.active != "" && cfg.mode == Control && access.paired && access.client
    && StandingStop(cfg, s, now).Some?
    && var c := StandingStop(cfg, s, now).value;
    && c.at + cfg.stopDebounce <= now && KeyOf(cfg, StopAction, c) != s.lastStop
  }

  lemma HurriesExactly(s: Session, now: int, trigger: Trigger)
    ensures Bypasses(s, now, trigger) <==> MayHurry(s, now, trigger)
  {
  }

  /** What a decision tries. */
  lemma DecidesExactly(cfg: Config, s: Session, now: int, trigger: Trigger)
    requires Fits(s)
    ensures var d := Decided(cfg, s, now, trigger);
            && (d.TryStart? <==>
                  && Awake(cfg, s, now, trigger) && s.active == "" && cfg.mode == Control
                  && StandingStart(s).Some? && StandingStart(s).value.at + cfg.startDebounce <= now)
            && (d.TryStart? ==> d.s.startCandidate == StandingStart(s) && d.s.lastStart == s.lastStart)
            && (d.TryStop? <==>
                  && Awake(cfg, s, now, trigger) && s.active != "" && cfg.mode == Control
                  && StandingStop(cfg, s, now).Some? && StandingStop(cfg, s, now).value.at + cfg.stopDebounce <= now)
            && (d.TryStop? ==> d.s.stopCandidate == StandingStop(cfg, s, now) && d.s.lastStop == s.lastStop && d.s.active == s.active)
  {
    HurriesExactly(s, now, trigger);
    CalmExactly(cfg, s, now);
    CalmExactly(cfg, s.(cooldownUntil := None), now);
    SameStanding(cfg, s, now);
    hide Bypasses, MayHurry, DecideCalm, StandingStop, StandingStart, Fits;
  }

  lemma SameStanding(cfg: Config, s: Session, now: int)
    requires Fits(s)
    ensures var t := s.(cooldownUntil := None);
            Fits(t) && StandingStart(t) == StandingStart(s) && StandingStop(cfg, t, now) == StandingStop(cfg, s, now)
  {
  }

  lemma CalmExactly(cfg: Config, s: Session, now: int)
    requires Fits(s) || Fits(s.(cooldownUntil := None))
    ensures var d := DecideCalm(cfg, s, now);
            var calm := s.decisionUntil.Some? ==> s.decisionUntil.value <= now;
            && (d.TryStart? <==>
                  && calm && s.active == "" && !cfg.mode.Observe?
                  && StandingStart(s).Some? && StandingStart(s).value.at + cfg.startDebounce <= now)
            && (d.TryStart? ==> d.s.startCandidate == StandingStart(s) && d.s.lastStart == s.lastStart)
            && (d.TryStop? <==>
                  && calm && s.active != "" && !cfg.mode.Observe?
                  && StandingStop(cfg, s, now).Some? && StandingStop(cfg, s, now).value.at + cfg.stopDebounce <= now)
            && (d.TryStop? ==> d.s.stopCandidate == StandingStop(cfg, s, now) && d.s.lastStop == s.lastStop && d.s.active == s.active)
  {
    hide CandidatesNamed;
    if s.active != "" {
      ActiveExactly(cfg, Promoted(s), now);
    }
  }

  lemma ActiveExactly(cfg: Config, s: Session, now: int)
    requires s.active != ""
    ensures var d := DecideActive(cfg, s, now);
            var stands := s.stopCandidate.Some? || IdleStop(cfg, s, now);
            && !d.TryStart?
            && (d.TryStop? ==> stands)
            && (d.TryStop? && s.stopCandidate.Some? ==> d.s.stopCandidate == s.stopCandidate)
            && (d.TryStop? && s.stopCandidate.None? ==> d.s.stopCandidate == Some(Candidate(s.trigger, "", now, IDLE, "")))
  {
  }

  lemma Extended(before: seq<Call>, more: seq<Call>)
    ensures (before + more)[|before|..] == more
  {
  }

  /** The calls a round adds. */
  function Added(y: System, t: System): seq<Call>
    requires |y.calls| <= |t.calls|
  {
    t.calls[|y.calls|..]
  }

  lemma StartRoundCalls(y: System, t: Session, now: int, access: Access, first: Answer)
    requires t.startCandidate.Some?
    ensures var c := t.startCandidate.value;
            var calls := access.paired && access.client && KeyOf(y.cfg, StartAction, c) != t.lastStart;
            StartRound(y, t, now, access, first).calls ==
              y.calls + if calls then [StartCall(KeyOf(y.cfg, StartAction, c), c.node, first.Accepted?)] else []
  {
  }

  lemma StopRoundCalls(y: System, t: Session, now: int, access: Access, first: Answer, second: Answer)
    requires t.stopCandidate.Some? && t.active != ""
    ensures var c := t.stopCandidate.value;
            var key := KeyOf(y.cfg, StopAction, c);
            var calls := access.paired && access.client && key != t.lastStop;
            var again := first.Refused? && !first.error.alreadyStopped && first.error.retryWithoutId;
            StopRound(y, t, now, access, first, second).calls ==
              y.calls + if !calls then []
                        else if again then [StopCall(key, c.node, t.active), StopCall(key, c.node, "")] else [StopCall(key, c.node, t.active)]
  {
  }

  /**
   A round calls the cloud exactly when nothing holds it back: for a start that stands and has been debounced while there
   is no session, or for a stop while there is one; once, and a stop a second time without the session ID when that is refused.
   */
  lemma CallsExactly(y: System, now: int, trigger: Trigger, access: Access, first: Answer, second: Answer)
    requires Inv(y)
    ensures var t := Round(y, now, trigger, access, first, second);
            var start, stop := StandingStart(y.s), StandingStop(y.cfg, y.s, now);
            var again := first.Refused? && !first.error.alreadyStopped && first.error.retryWithoutId;
            && |y.calls| <= |t.calls|
            && Added(y, t) ==
                 if CallsStart(y.cfg, y.s, now, trigger, access) then
                   [StartCall(KeyOf(y.cfg, StartAction, start.value), start.value.node, first.Accepted?)]
                 else if CallsStop(y.cfg, y.s, now, trigger, access) then
                   var key := KeyOf(y.cfg, StopAction, stop.value);
                   [StopCall(key, stop.value.node, y.s.active)] + (if again then [StopCall(key, stop.value.node, "")] else [])
                 else []
  {
    hide Named, Decided, Fits, StartRound, StopRound, Awake, StandingStart, StandingStop, KeyOf;
    DecidesExactly(y.cfg, y.s, now, trigger);
    var d := Decided(y.cfg, y.s, now, trigger);
    var t := Round(y, now, trigger, access, first, second);
    if d.TryStart? {
      StartRoundCalls(y, d.s, now, access, first);
    } else if d.TryStop? {
      StopRoundCalls(y, d.s, now, access, first, second);
    }
    Extended(y.calls, t.calls[|y.calls|..]);
  }

  // Where calls come from

  datatype Sight = Sight(node: string, at: int)

  function Nodes(sights: set<Sight>): set<string> {
    set s | s in sights :: s.node
  }

  /** The observations of nodes leaving home, and of nodes coming back, over a run. */
  function LeftIn(y: System, e: Event): set<Sight> {
    if e.Observed? && Leaves(y.cfg, y.s, e.p) then {Sight(e.p.node, e.p.at)} else {}
  }

  function ReturnedIn(y: System, e: Event): set<Sight> {
    if e.Observed? && Returns(y.cfg, y.s, e.p) then {Sight(e.p.node, e.p.at)} else {}
  }

  function Left(y: System, events: seq<Event>): set<Sight>
    decreases |events|
  {
    if events == [] then {} else LeftIn(y, events[0]) + Left(Next(y, events[0]), events[1..])
  }

  function Returned(y: System, events: seq<Event>): set<Sight>
    decreases |events|
  {
    if events == [] then {} else ReturnedIn(y, events[0]) + Returned(Next(y, events[0]), events[1..])
  }

  /** A start goes back to a node seen leaving: while nothing is pending to the very sight, unless its key is to be made afresh. */
  predicate StartStems(s: Session, left: set<Sight>) {
    && (s.startCandidate.Some? ==>
          var c := s.startCandidate.value;
          c.node in Nodes(left) && (s.pending.None? ==> Sight(c.node, c.at) in left || c.key == ""))
    && (s.pending.Some? && s.pending.value.action.StartAction? ==> s.pending.value.node in Nodes(left))
  }

  /** A stop goes back to a node seen coming home or to the idle time. */
  predicate StopStems(s: Session, returned: set<Sight>) {
    && (s.stopCandidate.Some? ==>
          var c := s.stopCandidate.value;
          c.reason == IDLE || (c.node in Nodes(returned) && (s.pending.None? ==> Sight(c.node, c.at) in returned)))
    && (s.pending.Some? && s.pending.value.action.StopAction? ==> s.pending.value.reason == IDLE || s.pending.value.node in Nodes(returned))
  }

  predicate Stems(s: Session, left: set<Sight>, returned: set<Sight>) {
    StartStems(s, left) && StopStems(s, returned)
  }

  lemma StemsLonger(s: Session, left: set<Sight>, returned: set<Sight>, more: set<Sight>, others: set<Sight>)
    requires Stems(s, left, returned)
    ensures Stems(s, left + more, returned + others)
  {
    assert forall n | n in Nodes(left) :: n in Nodes(left + more);
    assert forall n | n in Nodes(returned) :: n in Nodes(returned + others);
  }

  lemma ConsumedStems(y: System, p: Position, left: set<Sight>, returned: set<Sight>)
    requires Stems(y.s, left, returned)
    ensures Stems(Consumed(y.cfg, y.s, p), left + LeftIn(y, Observed(p)), returned + ReturnedIn(y, Observed(p)))
  {
    StemsLonger(y.s, left, returned, LeftIn(y, Observed(p)), ReturnedIn(y, Observed(p)));
    TransitionsPropose(y.cfg, y.s, p);
    var left', returned' := left + LeftIn(y, Observed(p)), returned + ReturnedIn(y, Observed(p));
    var sight := Sight(p.node, p.at);
    if Leaves(y.cfg, y.s, p) {
      assert sight in left' && p.node in Nodes(left');
    }
    if Returns(y.cfg, y.s, p) {
      assert sight in returned' && p.node in Nodes(returned');
    }
    ReturnsReason(y.cfg, y.s, p);
    hide Consumed, Leaves, Returns, Nodes, LeftIn, ReturnedIn;
  }

  /** A position never proposes a stop for idleness. */
  lemma ReturnsReason(cfg: Config, s: Session, p: Position)
    ensures Consumed(cfg, s, p).pending == s.pending
  {
  }

  /** With something pending, no candidate for the other action stands beside it. */
  predicate Alone(s: Session) {
    s.pending.Some? ==> if s.pending.value.action.StartAction? then s.stopCandidate.None? else s.startCandidate.None?
  }

  lemma PromotedStems(s: Session, left: set<Sight>, returned: set<Sight>)
    requires Stems(s, left, returned)
    ensures Stems(Promoted(s), left, returned) && Alone(Promoted(s)) && Promoted(s).pending == s.pending
  {
    hide Nodes;
  }

  lemma StateStems(s: Session, state: ModuleState, left: set<Sight>, returned: set<Sight>)
    requires Stems(s, left, returned)
    ensures Stems(s.(state := state), left, returned) && Stems(s.(cooldownUntil := None), left, returned)
  {
    hide Nodes;
  }

  lemma ActiveStems(cfg: Config, s: Session, now: int, left: set<Sight>, returned: set<Sight>)
    requires Stems(s, left, returned) && Alone(s) && (s.pending.Some? ==> s.pending.value.action.StopAction? && s.stopCandidate.Some?)
    ensures var d := DecideActive(cfg, s, now); Stems(d.s, left, returned) && Alone(d.s) && d.s.pending == s.pending
  {
    hide Nodes, IdleStop;
  }

  lemma InactiveStems(cfg: Config, s: Session, now: int, left: set<Sight>, returned: set<Sight>)
    requires Stems(s, left, returned) && Alone(s)
    ensures var d := DecideInactive(cfg, s, now); Stems(d.s, left, returned) && Alone(d.s) && d.s.pending == s.pending
  {
    hide Nodes;
  }

  lemma CalmStems(cfg: Config, s: Session, now: int, left: set<Sight>, returned: set<Sight>)
    requires Stems(s, left, returned) && Fits(s)
    ensures var d := DecideCalm(cfg, s, now); Stems(d.s, left, returned) && d.s.pending == s.pending && (!d.Rest? ==> Alone(d.s))
  {
    StateStems(s, Cooldown, left, returned);
    PromotedStems(s, left, returned);
    PromotedFits(s);
    hide Stems, DecideActive, DecideInactive, Promoted, Fits, FromPending, Alone;
    if s.active != "" {
      ActiveStems(cfg, Promoted(s), now, left, returned);
    } else {
      InactiveStems(cfg, Promoted(s), now, left, returned);
    }
  }

  lemma DecidedStems(cfg: Config, s: Session, now: int, trigger: Trigger, left: set<Sight>, returned: set<Sight>)
    requires Stems(s, left, returned) && Fits(s)
    ensures var d := Decided(cfg, s, now, trigger); Stems(d.s, left, returned) && (!d.Rest? ==> Alone(d.s))
  {
    var u := s.(cooldownUntil := None);
    WithoutCooldown(s, Rest(s));
    StateStems(s, Disabled, left, returned);
    StateStems(s, Misconfigured, left, returned);
    StateStems(s, Cooldown, left, returned);
    hide Stems, Bypasses, DecideCalm, Fits, Decides, Alone;
    CalmStems(cfg, s, now, left, returned);
    CalmStems(cfg, u, now, left, returned);
  }

  lemma StartAttemptStems(cfg: Config, t: Session, now: int, access: Access, left: set<Sight>, returned: set<Sight>)
    requires Stems(t, left, returned) && Alone(t) && t.startCandidate.Some? && (t.pending.Some? ==> t.pending.value.action.StartAction?)
    ensures Stems(StartAttempt(cfg, t, now, access).s, left, returned)
  {
    hide Nodes;
  }

  lemma StopAttemptStems(cfg: Config, t: Session, now: int, access: Access, left: set<Sight>, returned: set<Sight>)
    requires Stems(t, left, returned) && Alone(t) && t.stopCandidate.Some? && (t.pending.Some? ==> t.pending.value.action.StopAction?)
    ensures Stems(StopAttempt(cfg, t, now, access).s, left, returned)
  {
    hide Nodes;
  }

  lemma FailedStems(s: Session, action: Action, e: CloudError, now: int, left: set<Sight>, returned: set<Sight>)
    requires Stems(s, left, returned) && Fits(s) && s.pending.Some? && s.pending.value.action == action
    ensures Stems(Failed(s, action, e, now), left, returned)
  {
    hide Nodes, Delay;
  }

  lemma AnsweredStems(cfg: Config, s: Session, c: Candidate, first: Answer, second: Answer, now: int, left: set<Sight>, returned: set<Sight>)
    requires Stems(s, left, returned) && Fits(s) && s.pending.Some?
    ensures s.pending.value.action.StartAction? ==> Stems(StartAnswered(cfg, s, c, first, now), left, returned)
    ensures s.pending.value.action.StopAction? ==> Stems(StopAnswered(cfg, s, c, first, second, now), left, returned)
  {
    if first.Refused? {
      FailedStems(s, s.pending.value.action, first.error, now, left, returned);
    }
    if second.Refused? {
      FailedStems(s, s.pending.value.action, second.error, now, left, returned);
    }
    hide Nodes, Failed;
  }

  lemma SavedStems(s: Session, left: set<Sight>, returned: set<Sight>)
    requires Stems(s, left, returned)
    ensures Stems(Saved(s), left, returned)
  {
    hide Nodes;
  }

  lemma RestoredStems(cfg: Config, disk: Session, left: set<Sight>, returned: set<Sight>)
    requires Stems(disk, left, returned) && Fits(disk)
    ensures Stems(Restored(cfg, disk), left, returned)
  {
    hide Nodes;
  }

  predicate BothStem(y: System, left: set<Sight>, returned: set<Sight>) {
    Stems(y.s, left, returned) && Stems(y.disk, left, returned)
  }

  lemma PersistedStems(y: System, s: Session, calls: seq<Call>, left: set<Sight>, returned: set<Sight>)
    requires Stems(s, left, returned)
    ensures BothStem(Persisted(y, s, calls), left, returned)
  {
    SavedStems(s, left, returned);
    hide Stems;
  }

  lemma RoundStems(y: System, now: int, trigger: Trigger, access: Access, first: Answer, second: Answer, left: set<Sight>, returned: set<Sight>)
    requires Inv(y) && BothStem(y, left, returned)
    ensures BothStem(Round(y, now, trigger, access, first, second), left, returned)
  {
    hide Named, Decided, Fits, Stems, Alone, StartAttempt, StopAttempt, StartAnswered, StopAnswered, Persisted, StopCalls;
    var d := Decided(y.cfg, y.s, now, trigger);
    DecisionFits(y.cfg, y.s, now, trigger);
    DecidedStems(y.cfg, y.s, now, trigger, left, returned);
    PersistedStems(y, d.s, [], left, returned);
    if d.TryStart? {
      var a := StartAttempt(y.cfg, d.s, now, access);
      StartAttemptFits(y.cfg, d.s, now, access);
      StartAttemptStems(y.cfg, d.s, now, access, left, returned);
      PersistedStems(y, a.s, [], left, returned);
      if a.Call? {
        AnsweredStems(y.cfg, a.s, a.candidate, first, first, now, left, returned);
        PersistedStems(y, StartAnswered(y.cfg, a.s, a.candidate, first, now), [StartCall(a.candidate.key, a.candidate.node, first.Accepted?)], left, returned);
      }
    } else if d.TryStop? {
      var a := StopAttempt(y.cfg, d.s, now, access);
      StopAttemptFits(y.cfg, d.s, now, access);
      StopAttemptStems(y.cfg, d.s, now, access, left, returned);
      PersistedStems(y, a.s, [], left, returned);
      if a.Call? {
        AnsweredStems(y.cfg, a.s, a.candidate, first, second, now, left, returned);
        PersistedStems(y, StopAnswered(y.cfg, a.s, a.candidate, first, second, now), StopCalls(a.s, a.candidate, first), left, returned);
      }
    }
  }

  lemma UnfinishedStems(y: System, now: int, trigger: Trigger, access: Access, reached: Option<Answer>, left: set<Sight>, returned: set<Sight>)
    requires Inv(y) && BothStem(y, left, returned)
    ensures BothStem(Unfinished(y, now, trigger, access, reached), left, returned)
  {
    hide Named, Decided, Fits, Stems, Alone, StartAttempt, StopAttempt, Persisted, StopCalls;
    var d := Decided(y.cfg, y.s, now, trigger);
    DecisionFits(y.cfg, y.s, now, trigger);
    DecidedStems(y.cfg, y.s, now, trigger, left, returned);
    forall calls ensures BothStem(Persisted(y, d.s, calls), left, returned) {
      PersistedStems(y, d.s, calls, left, returned);
    }
    if d.TryStart? {
      var a := StartAttempt(y.cfg, d.s, now, access);
      StartAttemptStems(y.cfg, d.s, now, access, left, returned);
      forall calls ensures BothStem(Persisted(y, a.s, calls), left, returned) {
        PersistedStems(y, a.s, calls, left, returned);
      }
    } else if d.TryStop? {
      var a := StopAttempt(y.cfg, d.s, now, access);
      StopAttemptStems(y.cfg, d.s, now, access, left, returned);
      forall calls ensures BothStem(Persisted(y, a.s, calls), left, returned) {
        PersistedStems(y, a.s, calls, left, returned);
      }
    }
  }

  lemma ReopenedStems(y: System, cfg: Config, left: set<Sight>, returned: set<Sight>)
    requires Inv(y) && BothStem(y, left, returned)
    ensures BothStem(Reopened(y, cfg), left, returned)
  {
    hide Named, Stems, Restored, Saved, Fits;
    RestoredStems(cfg, y.disk, left, returned);
    SavedStems(Restored(cfg, y.disk), left, returned);
  }

  lemma OtherStems(s: Session, left: set<Sight>, returned: set<Sight>)
    requires Stems(s, left, returned)
    ensures Stems(Blocked(s), left, returned) && Stems(ResetByHand(s), left, returned)
  {
    hide Nodes;
  }

  lemma StepStems(y: System, e: Event, left: set<Sight>, returned: set<Sight>)
    requires Inv(y) && Enabled(y, e) && BothStem(y, left, returned)
    ensures BothStem(Next(y, e), left + LeftIn(y, e), returned + ReturnedIn(y, e))
  {
    hide Inv, Enabled, Round, Unfinished, Consumed, Reopened, Stems, Leaves, Returns, Persisted, Blocked, ResetByHand;
    if e.Observed? {
      ConsumedStems(y, e.p, left, returned);
      StemsLonger(y.disk, left, returned, LeftIn(y, e), ReturnedIn(y, e));
    } else {
      assert left + LeftIn(y, e) == left && returned + ReturnedIn(y, e) == returned;
      OtherStems(y.s, left, returned);
      match e
      case Evaluated(now, trigger, access, first, second) => RoundStems(y, now, trigger, access, first, second, left, returned);
      case CutShort(now, trigger, access, reached, again) =>
        UnfinishedStems(y, now, trigger, access, reached, left, returned);
        UnfinishedKeeps(y, now, trigger, access, reached);
        ReopenedStems(Unfinished(y, now, trigger, access, reached), again, left, returned);
      case Restarts(again) => ReopenedStems(y, again, left, returned);
      case Reset => PersistedStems(y, ResetByHand(y.s), [], left, returned);
      case Overflow => PersistedStems(y, Blocked(y.s), [], left, returned);
      case _ =>
    }
  }

  lemma {:induction false} RunStems(y: System, events: seq<Event>, t: System, left: set<Sight>, returned: set<Sight>)
    requires Inv(y) && IsRun(y, events, t) && BothStem(y, left, returned)
    ensures Inv(t) && BothStem(t, left + Left(y, events), returned + Returned(y, events))
    decreases |events|
  {
    hide Inv, Enabled, Next, BothStem, LeftIn, ReturnedIn;
    if events == [] {
      assert left + Left(y, events) == left && returned + Returned(y, events) == returned;
    } else {
      StepKeeps(y, events[0]);
      StepStems(y, events[0], left, returned);
      var n := Next(y, events[0]);
      RunStems(n, events[1..], t, left + LeftIn(y, events[0]), returned + ReturnedIn(y, events[0]));
      assert left + LeftIn(y, events[0]) + Left(n, events[1..]) == left + Left(y, events);
      assert returned + ReturnedIn(y, events[0]) + Returned(n, events[1..]) == returned + Returned(y, events);
    }
  }

  function NewSystem(cfg: Config): System {
    System(cfg, NEW, NEW, [])
  }

  /**
   From a new module and after any run: a start is called for only when its node was seen leaving home. With nothing
   pending that sight is at least the debounce time ago, unless the call makes up for one the cloud could name no session for.
   */
  lemma StartsFollowLeaving(cfg: Config, events: seq<Event>, y: System, now: int, trigger: Trigger, access: Access, first: Answer, second: Answer, i: nat)
    requires Named(cfg) && IsRun(NewSystem(cfg), events, y)
    requires var t := Round(y, now, trigger, access, first, second); |y.calls| <= i < |t.calls| && t.calls[i].StartCall?
    ensures var call := Round(y, now, trigger, access, first, second).calls[i];
            var left := Left(NewSystem(cfg), events);
            && call.node in Nodes(left) && Awake(y.cfg, y.s, now, trigger) && y.cfg.mode == Control && y.s.active == ""
            && (y.s.pending.None? ==>
                  || (exists s | s in left :: s.node == call.node && s.at + y.cfg.startDebounce <= now)
                  || (y.s.startCandidate.Some? && y.s.startCandidate.value.key == "" && y.s.startCandidate.value.at + y.cfg.startDebounce <= now))
  {
    NewModule(cfg);
    NewStems(cfg);
    RunStems(NewSystem(cfg), events, y, {}, {});
    CallsExactly(y, now, trigger, access, first, second);
    StandingStartStems(y.s, Left(NewSystem(cfg), events), Returned(NewSystem(cfg), events));
    hide Round, Stems, Awake, StandingStop, KeyOf, Nodes, Left, Returned, Inv, IsRun;
    var t := Round(y, now, trigger, access, first, second);
    assert t.calls[i] == Added(y, t)[i - |y.calls|];
    assert {} + Left(NewSystem(cfg), events) == Left(NewSystem(cfg), events);
    assert {} + Returned(NewSystem(cfg), events) == Returned(NewSystem(cfg), events);
  }

  lemma NewStems(cfg: Config)
    ensures BothStem(NewSystem(cfg), {}, {})
  {
  }

  lemma StandingStartStems(s: Session, left: set<Sight>, returned: set<Sight>)
    ensures Stems(s, left, returned) && StandingStart(s).Some? ==>
              var c := StandingStart(s).value;
              c.node in Nodes(left) && (s.pending.None? ==> Sight(c.node, c.at) in left || c.key == "")
  {
  }

  lemma StandingStopStems(cfg: Config, s: Session, now: int, left: set<Sight>, returned: set<Sight>)
    ensures Stems(s, left, returned) && StandingStop(cfg, s, now).Some? ==>
              var c := StandingStop(cfg, s, now).value;
              c.reason == IDLE || (c.node in Nodes(returned) && (s.pending.None? ==> Sight(c.node, c.at) in returned))
  {
  }

  /** And a stop only when its node was seen coming home, or the session's node has been inside and silent for the idle time. */
  lemma StopsFollowReturning(cfg: Config, events: seq<Event>, y: System, now: int, trigger: Trigger, access: Access, first: Answer, second: Answer, i: nat)
    requires Named(cfg) && IsRun(NewSystem(cfg), events, y)
    requires var t := Round(y, now, trigger, access, first, second); |y.calls| <= i < |t.calls| && t.calls[i].StopCall?
    ensures var call := Round(y, now, trigger, access, first, second).calls[i];
            var returned := Returned(NewSystem(cfg), events);
            var c := StandingStop(y.cfg, y.s, now);
            && c.Some? && call.node == c.value.node && c.value.at + y.cfg.stopDebounce <= now && y.s.active != ""
            && (c.value.reason == IDLE || call.node in Nodes(returned))
            && (y.s.pending.None? && c.value.reason != IDLE ==> Sight(c.value.node, c.value.at) in returned)
  {
    NewModule(cfg);
    NewStems(cfg);
    RunStems(NewSystem(cfg), events, y, {}, {});
    CallsExactly(y, now, trigger, access, first, second);
    StandingStopStems(y.cfg, y.s, now, Left(NewSystem(cfg), events), Returned(NewSystem(cfg), events));
    hide Round, Stems, Awake, StandingStart, StandingStop, KeyOf, Nodes, Left, Returned, Inv, IsRun;
    var t := Round(y, now, trigger, access, first, second);
    assert t.calls[i] == Added(y, t)[i - |y.calls|];
    assert {} + Left(NewSystem(cfg), events) == Left(NewSystem(cfg), events);
    assert {} + Returned(NewSystem(cfg), events) == Returned(NewSystem(cfg), events);
  }

  // What answers do

  /** What an attempt does before any call: it is suppressed, put off, blocked, or its pending action is written down first. */
  lemma AttemptsExactly(cfg: Config, s: Session, now: int, access: Access)
    ensures s.startCandidate.Some? ==>
              var c := s.startCandidate.value;
              Attempted(s, StartAttempt(cfg, s, now, access), StartAction, c, KeyOf(cfg, StartAction, c), s.lastStart, now, access)
              && (KeyOf(cfg, StartAction, c) == s.lastStart ==> StartAttempt(cfg, s, now, access).s.startCandidate.None?)
    ensures s.stopCandidate.Some? ==>
              var c := s.stopCandidate.value;
              Attempted(s, StopAttempt(cfg, s, now, access), StopAction, c, KeyOf(cfg, StopAction, c), s.lastStop, now, access)
              && (KeyOf(cfg, StopAction, c) == s.lastStop ==> StopAttempt(cfg, s, now, access).s.stopCandidate.None?)
  {
  }

  predicate Attempted(s: Session, a: Attempt, action: Action, c: Candidate, key: string, last: string, now: int, access: Access) {
    && a.s.lastActionAt == Some(now) && a.s.active == s.active && a.s.failures == s.failures
    && if key == last then a.NoCall? && a.s.pending.None? && a.s.lastResult == Suppressed && a.s.state == ControlReady
       else if !access.paired then a.NoCall? && a.s.pending == s.pending && a.s.lastResult == Deferred && a.s.state == ControlReady
       else if !access.client then a.NoCall? && a.s.pending == s.pending && a.s.lastResult == ClientUnavailable && HeldBack(a.s)
       else
         && a.Call? && a.candidate == c.(key := key) && a.s.lastResult == Attempting
         && a.s.state == (if action == StartAction then StartPending else StopPending)
         && a.s.pending.Some?
         && var p := a.s.pending.value;
         && p.action == action && p.node == c.node && p.device == c.device && p.reason == c.reason && p.key == key
         && p.since <= now && p.since <= c.at && (p.since == now || p.since == c.at)
  }

  /** Nothing is tried again before somebody steps in. */
  predicate HeldBack(s: Session) {
    s.state == Degraded && s.blocked && s.cooldownUntil.None? && s.retryClass.None?
  }

  function Or(a: string, b: string): string {
    if a == "" then b else a
  }

  function NamedIn(c: Option<Candidate>): string {
    if c.Some? then c.value.node else ""
  }

  function StartPendingOf(s: Session): Option<Candidate> {
    if s.pending.Some? && s.pending.value.action == StartAction then Some(FromPending(s.pending.value)) else None
  }

  /** Whose start a start without a session, or a session found active, is taken to be: the first that is named. */
  lemma NamesExactly(s: Session, now: int)
    ensures var r := Restarted(s, now);
            var p, c := StartPendingOf(s), s.startCandidate;
            && r.node == Or(NamedIn(p), Or(NamedIn(c), Or(s.trigger, Or(s.gpsNode, "unknown"))))
            && r.device == Or(if p.Some? then p.value.device else "", if c.Some? then c.value.device else "")
            && r.reason == Or(if c.Some? then c.value.reason else "", Or(if p.Some? then p.value.reason else "", LEFT_HOME))
            && r.at == now && r.key == ""
            && NodeOf(s) == Or(NamedIn(c), Or(NamedIn(p), s.trigger))
  {
  }

  /** Half the longer debounce, between one and thirty seconds. */
  function Settling(cfg: Config): int {
    var half := if cfg.startDebounce < cfg.stopDebounce then cfg.stopDebounce / 2 else cfg.startDebounce / 2;
    if half < SECOND then SECOND else if half > 30 * SECOND then 30 * SECOND else half
  }

  /** A start that is accepted makes the session, and a stop that is accepted or found done ends it. */
  lemma SuccessSettles(cfg: Config, s: Session, c: Candidate, sessionId: string, closed: bool, now: int)
    ensures var b := Begun(cfg, s, c, sessionId, now);
            && b.active == sessionId && b.trigger == c.node && b.lastStart == c.key && b.lastStop == s.lastStop && b.state == Active
            && b.lastResult == Started
    ensures var e := Ended(cfg, s, c, closed, now);
            && e.active == "" && e.trigger == "" && e.lastStop == c.key && e.lastStart == s.lastStart && e.state == ControlReady
            && e.lastResult == (if closed then AlreadyClosed else Stopped) && e.lastActionAt == Some(now)
    ensures forall t | t in {Begun(cfg, s, c, sessionId, now), Ended(cfg, s, c, closed, now)} ::
              && t.pending.None? && t.startCandidate.None? && t.stopCandidate.None? && t.cooldownUntil.None? && t.failures == 0 && !t.blocked && t.retryClass.None?
              && t.decisionUntil == Some(now + Settling(cfg))
  {
  }

  lemma FailuresCount(s: Session, action: Action, e: CloudError, now: int)
    ensures var t := Failed(s, action, e, now); t.failures == s.failures + 1 && t.lastStart == s.lastStart && t.lastStop == s.lastStop
  {
    hide Delay;
  }

  /** A stop is settled by its last answer, and a session that the cloud has closed already is taken as stopped. */
  lemma StopAnswersSettle(cfg: Config, s: Session, c: Candidate, first: Answer, second: Answer, now: int)
    requires Fits(s) && s.pending.Some? && s.pending.value.action == StopAction
    ensures var t := StopAnswered(cfg, s, c, first, second, now);
            var again := first.Refused? && !first.error.alreadyStopped && first.error.retryWithoutId;
            var last := if again then second else first;
            && (t.failures == 0 <==> last.Accepted? || last.error.alreadyStopped)
            && (t.failures == 0 ==>
                  t.active == "" && t.lastStop == c.key && t.lastResult == (if last.Refused? || last.closed then AlreadyClosed else Stopped))
            && (t.failures > 0 ==> t.failures == s.failures + 1 && t.lastStop == s.lastStop)
  {
    if second.Refused? {
      FailuresCount(s, StopAction, second.error, now);
    }
    if first.Refused? {
      FailuresCount(s, StopAction, first.error, now);
    }
    hide Failed;
  }

  /** What each kind of error leads to, by what the error can be recognised as, the first that applies. */
  lemma ErrorsSettle(s: Session, action: Action, e: CloudError, now: int)
    requires Fits(s) && s.pending.Some? && s.pending.value.action == action
    ensures var t := Failed(s, action, e, now);
            var starting := action == StartAction;
            && t.failures == s.failures + 1 && t.lastActionAt == Some(now) && t.lastStart == s.lastStart && t.lastStop == s.lastStop
            && if e.lifecycle.Some? then t.pending.None? && t.active == "" && t.trigger == "" && HeldBack(t) && t.lastResult == Rejected(e.lifecycle.value)
               else if starting && e.alreadyActive && e.sessionId != "" then
                 t.pending.None? && t.active == e.sessionId && t.trigger != "" && t.trigger == Or(NodeOf(s), s.trigger) && t.state == Active
                 && t.cooldownUntil.None? && t.retryClass.None? && !t.blocked && t.lastResult == AlreadyActiveSynced
               else if starting && e.alreadyActive then t.pending.None? && t.active == s.active && HeldBack(t) && t.lastResult == AlreadyActiveConflict
               else if starting && e.missingSessionId then
                 && t.pending.None? && t.startCandidate.Some? && t.startCandidate.value.node == s.pending.value.node
                 && t.startCandidate.value.key == "" && t.startCandidate.value.at == now && t.stopCandidate.None?
                 && t.cooldownUntil.Some? && now < t.cooldownUntil.value && t.active == s.active && !t.blocked
                 && t.state == Cooldown && t.lastResult == MissingIdRetry && t.retryClass == Some(StartMissingId)
               else if !starting && e.stateMismatch then t.pending.None? && t.active == s.active && HeldBack(t) && t.lastResult == StateMismatch
               else if e.retryable then
                 && t.pending == s.pending && t.active == s.active && t.state == Cooldown && !t.blocked && t.lastResult == RetryScheduled
                 && t.retryClass == Some(if e.network then Network else Generic)
                 && t.cooldownUntil.Some? && now + 9 * SECOND <= t.cooldownUntil.value <= now + 240 * SECOND
               else t.pending == s.pending && t.active == s.active && HeldBack(t) && t.lastResult == FailedForGood
  {
    DelayIsBounded(action, if e.network then Network else Generic, s.failures + 1, e.jitter);
    DelayIsBounded(StartAction, Generic, s.failures + 1, e.jitter);
    hide Delay;
  }

  function PowerOfTwo(n: nat): nat {
    if n == 0 then 1 else 2 * PowerOfTwo(n - 1)
  }

  /** Half a minute doubled for the second to the fourth failure; a stop that timed out is first retried after 10, 20 and 30 seconds. */
  lemma DelaysExactly(action: Action, kind: RetryClass, failures: nat)
    requires failures >= 1
    ensures var d := RetryDelay(action, kind, failures);
            if action == StopAction && kind == Network && failures <= 3 then d == 10 * SECOND * failures
            else
              var n := if action == StopAction && kind == Network then failures - 2 else failures;
              d == 30 * SECOND * PowerOfTwo(if n <= 4 then n - 1 else 3)
  {
    assert PowerOfTwo(1) == 2 && PowerOfTwo(2) == 4 && PowerOfTwo(3) == 8;
  }

  lemma UpToTenfold(base: nat, n: nat)
    requires n <= 10
    ensures 0 <= base * n <= 10 * base
  {
    assert base * n + base * (10 - n) == base * 10;
    assert base * (10 - n) >= 0;
  }

  lemma HundredthIsBounded(x: nat, base: nat)
    requires x <= 10 * base
    ensures 0 <= 10 * (x / 100) <= base
  {
  }

  lemma PercentMirrors(base: int, n: int)
    requires base >= 0 && n >= 0
    ensures Percent(base, n) == base * n / 100 && Percent(base, -n) == -(base * n / 100)
  {
    assert base * -(-n) == base * n;
    if n == 0 {
      assert base * n == 0;
    }
  }

  lemma TenthAtMost(base: int, offset: int)
    requires base >= 0 && -10 <= offset <= 10
    ensures -base <= 10 * Percent(base, offset) <= base
    ensures offset >= 0 ==> Percent(base, offset) >= 0
    ensures offset <= 0 ==> Percent(base, offset) <= 0
  {
    hide Percent;
    var size := if offset >= 0 then offset else -offset;
    UpToTenfold(base, size);
    HundredthIsBounded(base * size, base);
    PercentMirrors(base, size);
  }

  lemma BaseIsBounded(action: Action, kind: RetryClass, failures: nat)
    ensures 10 * SECOND <= RetryDelay(action, kind, failures) <= 240 * SECOND
  {
  }

  lemma HundredthsExactly(h: nat, n: nat)
    ensures 100 * h * n / 100 == h * n
  {
    assert 100 * h * n == 100 * (h * n);
  }

  lemma PercentExactly(base: int, offset: int)
    requires base >= 0 && base % 100 == 0
    ensures 100 * Percent(base, offset) == base * offset
  {
    hide Percent;
    var n := if offset >= 0 then offset else -offset;
    HundredthsExactly(base / 100, n);
    PercentMirrors(base, n);
    assert base * n == 100 * (base / 100 * n);
    assert base * -n == -(base * n);
  }

  lemma BaseIsRound(action: Action, kind: RetryClass, failures: nat)
    ensures RetryDelay(action, kind, failures) % 100 == 0
  {
  }

  /** The jitter moves a delay by up to ten per cent of it, as the hash byte says, and never past its bounds. */
  lemma JitterIsSmall(action: Action, kind: RetryClass, failures: nat, jitter: byte)
    ensures var base, d := RetryDelay(action, kind, failures), Delay(action, kind, failures, jitter);
            && 10 * d >= 9 * base && 10 * d <= 11 * base && d <= 240 * SECOND
            && (d == 240 * SECOND || 100 * (d - base) == base * ((jitter as int) % 21 - 10))
            && ((jitter as int) % 21 >= 10 ==> d >= base) && ((jitter as int) % 21 <= 10 ==> d <= base)
  {
    var base, offset := RetryDelay(action, kind, failures), (jitter as int) % 21 - 10;
    BaseIsBounded(action, kind, failures);
    BaseIsRound(action, kind, failures);
    TenthAtMost(base, offset);
    PercentExactly(base, offset);
    hide RetryDelay, Percent;
    assert Delay(action, kind, failures, jitter) == Min(Max(base + Percent(base, offset), SECOND), RETRY_COOLDOWN_MAX);
  }

  /** A reset by hand clears what holds the module back and what it was about to do, and keeps the session. */
  lemma ResetClears(s: Session)
    ensures var t := ResetByHand(s);
            && t.pending.None? && t.startCandidate.None? && t.stopCandidate.None? && t.cooldownUntil.None? && t.decisionUntil.None?
            && !t.blocked && t.failures == 0 && t.retryClass.None? && t.state != Degraded && t.active == s.active && t.trigger == s.trigger
            && t.lastStart == s.lastStart && t.lastStop == s.lastStop
  {
  }

  /** The state file forgets candidates, positions and what the last retry was for, and nothing else. */
  lemma SavesExactly(s: Session)
    ensures var d := Saved(s);
            && d.startCandidate.None? && d.stopCandidate.None? && d.retryClass.None? && d.facts == map[]
            && d == s.(startCandidate := d.startCandidate, stopCandidate := d.stopCandidate, retryClass := d.retryClass, facts := d.facts)
  {
  }

  /** A state file whose pending action names no node or no key. */
  predicate Unusable(s: Session) {
    s.pending.Some? && (s.pending.value.node == "" || s.pending.value.key == "")
  }

  predicate StandsForStart(s: Session) {
    && s.pending.Some? && !Unusable(s)
    && s.pending.value.action == StartAction && s.pending.value.key != s.lastStart
  }

  predicate StandsForStop(s: Session) {
    && s.pending.Some? && !Unusable(s)
    && s.pending.value.action == StopAction && s.pending.value.key != s.lastStop && s.active != ""
  }

  predicate Unmatched(s: Session) {
    (s.active == "") != (s.trigger == "")
  }

  /**
   A reconciling restart takes up the pending action of the state file as the candidate that stands, unless it has been done
   already or its session is gone.
   */
  lemma ReconcilesExactly(s: Session)
    requires s.startCandidate.None? && s.stopCandidate.None?
    ensures var t := Reconciled(s);
            && t.startCandidate == (if StandsForStart(s) then Some(FromPending(s.pending.value)) else None)
            && t.stopCandidate == (if StandsForStop(s) then Some(FromPending(s.pending.value)) else None)
            && t.pending == (if StandsForStart(s) || StandsForStop(s) || Unusable(s) then s.pending else None)
  {
    hide FromPending;
  }

  /** It changes neither the session nor the keys of the last successes. */
  lemma ReconcilingKeeps(s: Session)
    ensures var t := Reconciled(s);
            t == s.(pending := t.pending, startCandidate := t.startCandidate, stopCandidate := t.stopCandidate,
                    state := t.state, blocked := t.blocked, cooldownUntil := t.cooldownUntil, retryClass := t.retryClass)
  {
    hide FromPending;
  }

  /** A state file that contradicts itself holds the module back, and one with a session goes on with it. */
  lemma ContradictionHoldsBack(s: Session)
    ensures var t := Reconciled(s);
            if Unusable(s) || Unmatched(s) then HeldBack(t)
            else t.blocked == s.blocked && t.cooldownUntil == s.cooldownUntil && t.state == if s.active != "" then Active else s.state
  {
  }

  /** Without reconciling, session and pending action are forgotten. */
  lemma RestartsExactly(cfg: Config, disk: Session)
    ensures var s := Restored(cfg, disk);
            && (cfg.startupReconcile ==> s == Reconciled(Saved(disk)))
            && (!cfg.startupReconcile ==>
                  && s.active == "" && s.trigger == "" && s.pending.None? && s.startCandidate.None? && s.stopCandidate.None? && !s.blocked
                  && s.cooldownUntil == disk.cooldownUntil && s.decisionUntil == disk.decisionUntil && s.failures == disk.failures
                  && s.lastStart == disk.lastStart && s.lastStop == disk.lastStop)
  {
    hide Reconciled;
  }
}

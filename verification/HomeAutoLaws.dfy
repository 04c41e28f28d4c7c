/** Over whole runs, restarts included: one pending action at a time, one key per action, no start repeated. */
module HomeAutoLaws {
  import opened Common
  import opened HomeAutoSession

  /** A call to the cloud; a start has begun a session once the module has seen it accepted. */
  datatype Call = StartCall(key: string, node: string, begun: bool) | StopCall(key: string, node: string, sessionId: string)

  datatype System = System(cfg: Config, s: Session, disk: Session, calls: seq<Call>)

  datatype Event =
    | Observed(p: Position)
    | Configured(cfg: Config)
    | Evaluated(now: int, trigger: Trigger, access: Access, first: Answer, second: Answer)
    | CutShort(now: int, trigger: Trigger, access: Access, reached: Option<Answer>, again: Config)
    | Restarts(again: Config)
    | Reset
    | Overflow

  ghost predicate Named(cfg: Config) {
    forall a, n, t, r :: cfg.keyOf(a, n, t, r) != ""
  }

  predicate Begins(a: Answer) {
    a.Accepted? ==> a.sessionId != ""
  }

  ghost predicate Enabled(y: System, e: Event) {
    match e
    case Configured(cfg) => Named(cfg)
    case Evaluated(_, _, _, first, _) => Begins(first)
    case CutShort(_, _, _, _, again) => Named(again)
    case Restarts(again) => Named(again)
    case _ => true
  }

  function Persisted(y: System, s: Session, calls: seq<Call>): System {
    y.(s := s, disk := Saved(s), calls := y.calls + calls)
  }

  function Reopened(y: System, cfg: Config): System {
    var s := Restored(cfg, y.disk);
    y.(cfg := cfg, s := s, disk := Saved(s))
  }

  function StartRound(y: System, t: Session, now: int, access: Access, first: Answer): System
    requires t.startCandidate.Some?
  {
    match StartAttempt(y.cfg, t, now, access)
    case NoCall(u) => Persisted(y, u, [])
    case Call(u, c) => Persisted(y, StartAnswered(y.cfg, u, c, first, now), [StartCall(c.key, c.node, first.Accepted?)])
  }

  function StopCalls(u: Session, c: Candidate, first: Answer): seq<Call> {
    if AskedAgain(u, first) then [StopCall(c.key, c.node, u.active), StopCall(c.key, c.node, "")] else [StopCall(c.key, c.node, u.active)]
  }

  function StopRound(y: System, t: Session, now: int, access: Access, first: Answer, second: Answer): System
    requires t.stopCandidate.Some?
  {
    match StopAttempt(y.cfg, t, now, access)
    case NoCall(u) => Persisted(y, u, [])
    case Call(u, c) => Persisted(y, StopAnswered(y.cfg, u, c, first, second, now), StopCalls(u, c, first))
  }

  function Round(y: System, now: int, trigger: Trigger, access: Access, first: Answer, second: Answer): System {
    match Decided(y.cfg, y.s, now, trigger)
    case Rest(t) => Persisted(y, t, [])
    case TryStart(t) => if t.startCandidate.Some? then StartRound(y, t, now, access, first) else Persisted(y, t, [])
    case TryStop(t) => if t.stopCandidate.Some? then StopRound(y, t, now, access, first, second) else Persisted(y, t, [])
  }

  /** A round whose process dies while the cloud is being asked, the first or the second time. */
  function Unfinished(y: System, now: int, trigger: Trigger, access: Access, first: Option<Answer>): System {
    match Decided(y.cfg, y.s, now, trigger)
    case Rest(t) => Persisted(y, t, [])
    case TryStart(t) =>
      if t.startCandidate.None? then Persisted(y, t, []) else
        (match StartAttempt(y.cfg, t, now, access)
         case NoCall(u) => Persisted(y, u, [])
         case Call(u, c) => Persisted(y, u, [StartCall(c.key, c.node, false)]))
    case TryStop(t) =>
      if t.stopCandidate.None? then Persisted(y, t, []) else
        (match StopAttempt(y.cfg, t, now, access)
         case NoCall(u) => Persisted(y, u, [])
         case Call(u, c) => Persisted(y, u, if first.Some? then StopCalls(u, c, first.value) else [StopCall(c.key, c.node, u.active)]))
  }

  function Next(y: System, e: Event): System {
    match e
    case Observed(p) => y.(s := Consumed(y.cfg, y.s, p))
    case Configured(cfg) => y.(cfg := cfg)
    case Evaluated(now, trigger, access, first, second) => Round(y, now, trigger, access, first, second)
    case CutShort(now, trigger, access, first, again) => Reopened(Unfinished(y, now, trigger, access, first), again)
    case Restarts(again) => Reopened(y, again)
    case Reset => Persisted(y, ResetByHand(y.s), [])
    case Overflow => Persisted(y, Blocked(y.s), [])
  }

  // What every event keeps

  predicate PendingFits(s: Session) {
    s.pending.Some? ==>
      var p := s.pending.value;
      && p.node != "" && p.key != ""
      && if p.action.StartAction? then s.active == "" && p.key != s.lastStart else s.active != "" && p.key != s.lastStop
  }

  predicate CandidatesNamed(s: Session) {
    && (s.startCandidate.Some? ==> s.startCandidate.value.node != "")
    && (s.stopCandidate.Some? ==> s.stopCandidate.value.node != "")
  }

  /** A pending start means no session and a pending stop means one; a session has the node that triggered it. */
  predicate Fits(s: Session) {
    PendingFits(s) && CandidatesNamed(s) && (s.active == "" <==> s.trigger == "")
  }

  predicate SameCommitments(s: Session, t: Session) {
    s.pending == t.pending && s.active == t.active && s.trigger == t.trigger && s.lastStart == t.lastStart && s.lastStop == t.lastStop
  }

  ghost predicate Inv(y: System) {
    Named(y.cfg) && Fits(y.s) && Fits(y.disk) && SameCommitments(y.s, y.disk)
  }

  /** The same action under the same key, or nothing any more. */
  predicate Kept(p: Pending, q: Option<Pending>) {
    q.Some? ==> q.value.action == p.action && q.value.key == p.key && q.value.node == p.node
  }

  predicate Carries(call: Call, p: Pending) {
    call.key == p.key && (call.StartCall? <==> p.action.StartAction?)
  }

  predicate AllCarry(calls: seq<Call>, p: Pending) {
    forall i | 0 <= i < |calls| :: Carries(calls[i], p)
  }

  /** Promotion changes no commitment and puts what is pending before any candidate. */
  lemma PromotedFits(s: Session)
    requires Fits(s)
    ensures var t := Promoted(s);
            && Fits(t) && SameCommitments(s, t)
            && (s.pending.Some? && s.active == "" ==> s.pending.value.action.StartAction? && t.startCandidate == Some(FromPending(s.pending.value)))
            && (s.pending.Some? && s.active != "" ==> s.pending.value.action.StopAction? && t.stopCandidate == Some(FromPending(s.pending.value)))
  {
  }

  lemma ActiveFits(cfg: Config, s: Session, now: int)
    requires Fits(s) && s.active != ""
    ensures var d := DecideActive(cfg, s, now);
            && Fits(d.s) && SameCommitments(s, d.s) && !d.TryStart?
            && (d.TryStop? ==> d.s.stopCandidate.Some? && (s.stopCandidate.Some? ==> d.s.stopCandidate == s.stopCandidate))
  {
    hide IdleStop;
  }

  lemma InactiveFits(cfg: Config, s: Session, now: int)
    requires Fits(s)
    ensures var d := DecideInactive(cfg, s, now);
            && Fits(d.s) && SameCommitments(s, d.s) && !d.TryStop?
            && (d.TryStart? ==> d.s.startCandidate.Some? && d.s.startCandidate == s.startCandidate)
  {
  }

  /** A decision changes no commitment, and it tries only what is pending if anything is. */
  predicate Decides(s: Session, d: Decision) {
    && Fits(d.s) && SameCommitments(s, d.s)
    && (d.TryStart? ==> d.s.startCandidate.Some? && d.s.active == "")
    && (d.TryStop? ==> d.s.stopCandidate.Some? && d.s.active != "")
    && (s.pending.Some? && d.TryStart? ==> s.pending.value.action.StartAction? && d.s.startCandidate == Some(FromPending(s.pending.value)))
    && (s.pending.Some? && d.TryStop? ==> s.pending.value.action.StopAction? && d.s.stopCandidate == Some(FromPending(s.pending.value)))
  }

  lemma CalmFits(cfg: Config, s: Session, now: int)
    requires Fits(s)
    ensures Decides(s, DecideCalm(cfg, s, now))
  {
    Waits(s, Cooldown);
    hide DecideActive, DecideInactive, Promoted, Fits, FromPending;
    PromotedFits(s);
    if s.active != "" {
      ActiveFits(cfg, Promoted(s), now);
    } else {
      InactiveFits(cfg, Promoted(s), now);
    }
  }

  lemma Waits(s: Session, state: ModuleState)
    requires Fits(s)
    ensures Decides(s, Rest(s.(state := state)))
  {
  }

  lemma WithoutCooldown(s: Session, d: Decision)
    requires Fits(s)
    ensures Fits(s.(cooldownUntil := None)) && (Decides(s.(cooldownUntil := None), d) ==> Decides(s, d))
  {
  }

  lemma DecisionFits(cfg: Config, s: Session, now: int, trigger: Trigger)
    requires Fits(s)
    ensures Decides(s, Decided(cfg, s, now, trigger))
  {
    hide Bypasses, DecideCalm, Decides, Fits;
    var u := s.(cooldownUntil := None);
    Waits(s, Disabled);
    Waits(s, Misconfigured);
    Waits(s, Cooldown);
    Waits(s, s.state);
    CalmFits(cfg, s, now);
    WithoutCooldown(s, DecideCalm(cfg, u, now));
    CalmFits(cfg, u, now);
  }

  lemma StartAttemptFits(cfg: Config, t: Session, now: int, access: Access)
    requires Named(cfg) && Fits(t) && t.startCandidate.Some? && t.active == ""
    ensures var a := StartAttempt(cfg, t, now, access);
            && Fits(a.s)
            && (a.Call? ==> a.s.pending.Some? && a.s.pending.value.key == a.candidate.key && a.s.pending.value.action.StartAction?
                            && a.candidate.node != "" && a.candidate.key != t.lastStart && a.s.startCandidate.Some?
                            && a.s.lastStart == t.lastStart && a.s.lastStop == t.lastStop && a.s.active == "")
            && (a.NoCall? ==> SameCommitments(t, a.s) || SameCommitments(t.(pending := None), a.s))
  {
  }

  lemma StopAttemptFits(cfg: Config, t: Session, now: int, access: Access)
    requires Named(cfg) && Fits(t) && t.stopCandidate.Some? && t.active != ""
    ensures var a := StopAttempt(cfg, t, now, access);
            && Fits(a.s)
            && (a.Call? ==> a.s.pending.Some? && a.s.pending.value.key == a.candidate.key && a.s.pending.value.action.StopAction?
                            && a.s.lastStart == t.lastStart && a.s.active == t.active)
            && (a.NoCall? ==> SameCommitments(t, a.s) || SameCommitments(t.(pending := None), a.s))
  {
  }

  lemma FailedFits(s: Session, action: Action, e: CloudError, now: int)
    requires Fits(s) && s.pending.Some? && s.pending.value.action == action
    requires action.StartAction? ==> s.startCandidate.Some?
    ensures var t := Failed(s, action, e, now);
            Fits(t) && (t.pending == s.pending || t.pending.None?) && t.lastStart == s.lastStart
  {
    hide Delay;
  }

  lemma RoundKeeps(y: System, now: int, trigger: Trigger, access: Access, first: Answer, second: Answer)
    requires Inv(y) && Begins(first)
    ensures Inv(Round(y, now, trigger, access, first, second))
  {
    hide Named, Decided, StartAttempt, StopAttempt, Failed, PendingFits, CandidatesNamed;
    var d := Decided(y.cfg, y.s, now, trigger);
    DecisionFits(y.cfg, y.s, now, trigger);
    SavedFits(d.s);
    if d.TryStart? {
      StartAttemptFits(y.cfg, d.s, now, access);
      var a := StartAttempt(y.cfg, d.s, now, access);
      SavedFits(a.s);
      if a.Call? {
        StartAnswerFits(y.cfg, a.s, a.candidate, first, now);
        SavedFits(StartAnswered(y.cfg, a.s, a.candidate, first, now));
      }
    } else if d.TryStop? {
      StopAttemptFits(y.cfg, d.s, now, access);
      var a := StopAttempt(y.cfg, d.s, now, access);
      SavedFits(a.s);
      if a.Call? {
        StopAnswerFits(y.cfg, a.s, a.candidate, first, second, now);
        SavedFits(StopAnswered(y.cfg, a.s, a.candidate, first, second, now));
      }
    }
  }

  lemma SavedFits(s: Session)
    requires Fits(s)
    ensures Fits(Saved(s)) && SameCommitments(s, Saved(s))
  {
  }

  lemma StartAnswerFits(cfg: Config, s: Session, c: Candidate, a: Answer, now: int)
    requires Fits(s) && Begins(a) && c.node != "" && s.startCandidate.Some? && s.pending.Some? && s.pending.value.action.StartAction?
    ensures var t := StartAnswered(cfg, s, c, a, now);
            && Fits(t) && (t.pending == s.pending || t.pending.None?)
            && t.lastStart == if a.Accepted? then c.key else s.lastStart
  {
    hide Failed;
    if a.Refused? {
      FailedFits(s, StartAction, a.error, now);
    }
  }

  lemma StopAnswerFits(cfg: Config, s: Session, c: Candidate, first: Answer, second: Answer, now: int)
    requires Fits(s) && s.pending.Some? && s.pending.value.action.StopAction?
    ensures var t := StopAnswered(cfg, s, c, first, second, now);
            Fits(t) && (t.pending == s.pending || t.pending.None?) && t.lastStart == s.lastStart
  {
    hide Failed;
    if first.Refused? {
      FailedFits(s, StopAction, first.error, now);
    }
    if second.Refused? {
      FailedFits(s, StopAction, second.error, now);
    }
  }

  /** A consistent state file is never found inconsistent at startup, and reconciling keeps what it says. */
  lemma RestoredFits(cfg: Config, disk: Session)
    requires Fits(disk)
    ensures var s := Restored(cfg, disk);
            && Fits(s) && s.lastStart == disk.lastStart && s.lastStop == disk.lastStop && (s.blocked ==> disk.blocked)
            && (cfg.startupReconcile ==> SameCommitments(disk, s))
            && (!cfg.startupReconcile ==> s.pending.None? && s.active == "")
  {
  }

  lemma ReopenedKeeps(y: System, cfg: Config)
    requires Inv(y) && Named(cfg)
    ensures Inv(Reopened(y, cfg))
  {
    hide Named, Restored, PendingFits;
    RestoredFits(cfg, y.disk);
    SavedFits(Restored(cfg, y.disk));
  }

  lemma UnfinishedKeeps(y: System, now: int, trigger: Trigger, access: Access, first: Option<Answer>)
    requires Inv(y)
    ensures Inv(Unfinished(y, now, trigger, access, first))
  {
    hide Named, Decided, StartAttempt, StopAttempt, PendingFits, CandidatesNamed;
    var d := Decided(y.cfg, y.s, now, trigger);
    DecisionFits(y.cfg, y.s, now, trigger);
    SavedFits(d.s);
    if d.TryStart? {
      StartAttemptFits(y.cfg, d.s, now, access);
      SavedFits(StartAttempt(y.cfg, d.s, now, access).s);
    } else if d.TryStop? {
      StopAttemptFits(y.cfg, d.s, now, access);
      SavedFits(StopAttempt(y.cfg, d.s, now, access).s);
    }
  }

  lemma ConsumedKeeps(y: System, p: Position)
    requires Inv(y)
    ensures Inv(y.(s := Consumed(y.cfg, y.s, p))) && SameCommitments(y.s, Consumed(y.cfg, y.s, p))
  {
    hide Named;
  }

  lemma StepKeeps(y: System, e: Event)
    requires Inv(y) && Enabled(y, e)
    ensures Inv(Next(y, e))
  {
    hide Named, Round, Unfinished, Consumed, Restored;
    match e
    case Observed(p) => ConsumedKeeps(y, p);
    case Configured(_) =>
    case Evaluated(now, trigger, access, first, second) => RoundKeeps(y, now, trigger, access, first, second);
    case CutShort(now, trigger, access, first, again) =>
      UnfinishedKeeps(y, now, trigger, access, first);
      ReopenedKeeps(Unfinished(y, now, trigger, access, first), again);
    case Restarts(again) => ReopenedKeeps(y, again);
    case Reset =>
    case Overflow =>
  }

  // One action, one key

  lemma StartRoundCarries(y: System, t: Session, now: int, access: Access, first: Answer, p: Pending)
    requires Named(y.cfg) && Fits(t) && t.active == "" && t.pending == Some(p) && t.startCandidate == Some(FromPending(p))
    requires p.action.StartAction? && Begins(first)
    ensures var u := StartRound(y, t, now, access, first);
            && Kept(p, u.s.pending) && y.calls <= u.calls && AllCarry(u.calls[|y.calls|..], p)
  {
    StartAttemptFits(y.cfg, t, now, access);
    StartKeeps(y.cfg, t, now, access, p);
    hide Named, StartAttempt, StartAnswered, Fits;
    var a := StartAttempt(y.cfg, t, now, access);
    if a.Call? {
      StartAnswerFits(y.cfg, a.s, a.candidate, first, now);
    }
  }

  lemma StartKeeps(cfg: Config, t: Session, now: int, access: Access, p: Pending)
    requires Fits(t) && t.pending == Some(p) && t.startCandidate == Some(FromPending(p)) && p.action.StartAction?
    ensures var a := StartAttempt(cfg, t, now, access);
            Kept(p, a.s.pending) && (a.Call? ==> a.candidate.key == p.key)
  {
  }

  lemma StopKeeps(cfg: Config, t: Session, now: int, access: Access, p: Pending)
    requires Fits(t) && t.pending == Some(p) && t.stopCandidate == Some(FromPending(p)) && p.action.StopAction?
    ensures var a := StopAttempt(cfg, t, now, access);
            Kept(p, a.s.pending) && (a.Call? ==> a.candidate.key == p.key)
  {
  }

  lemma StopRoundCarries(y: System, t: Session, now: int, access: Access, first: Answer, second: Answer, p: Pending)
    requires Named(y.cfg) && Fits(t) && t.active != "" && t.pending == Some(p) && t.stopCandidate == Some(FromPending(p))
    requires p.action.StopAction?
    ensures var u := StopRound(y, t, now, access, first, second);
            && Kept(p, u.s.pending) && y.calls <= u.calls && AllCarry(u.calls[|y.calls|..], p)
  {
    StopAttemptFits(y.cfg, t, now, access);
    StopKeeps(y.cfg, t, now, access, p);
    hide Named, StopAttempt, StopAnswered, Fits;
    var a := StopAttempt(y.cfg, t, now, access);
    if a.Call? {
      StopAnswerFits(y.cfg, a.s, a.candidate, first, second, now);
    }
  }

  lemma RoundCarries(y: System, now: int, trigger: Trigger, access: Access, first: Answer, second: Answer)
    requires Inv(y) && y.s.pending.Some? && Begins(first)
    ensures var t := Round(y, now, trigger, access, first, second);
            && Kept(y.s.pending.value, t.s.pending) && y.calls <= t.calls && AllCarry(t.calls[|y.calls|..], y.s.pending.value)
  {
    hide Named, Decided, Fits, StartRound, StopRound, FromPending;
    var d := Decided(y.cfg, y.s, now, trigger);
    DecisionFits(y.cfg, y.s, now, trigger);
    if d.TryStart? {
      StartRoundCarries(y, d.s, now, access, first, y.s.pending.value);
    } else if d.TryStop? {
      StopRoundCarries(y, d.s, now, access, first, second, y.s.pending.value);
    }
  }

  lemma KeysDiffer(s: Session)
    requires Fits(s) && s.pending.Some?
    ensures s.pending.value.key != ""
  {
  }

  lemma UnfinishedCarries(y: System, now: int, trigger: Trigger, access: Access, first: Option<Answer>)
    requires Inv(y) && y.s.pending.Some?
    ensures var t := Unfinished(y, now, trigger, access, first);
            && Kept(y.s.pending.value, t.s.pending) && y.calls <= t.calls && AllCarry(t.calls[|y.calls|..], y.s.pending.value)
  {
    hide Named, Decided, PendingFits, CandidatesNamed;
    KeysDiffer(y.s);
    var d := Decided(y.cfg, y.s, now, trigger);
    DecisionFits(y.cfg, y.s, now, trigger);
    if d.TryStart? {
      StartAttemptFits(y.cfg, d.s, now, access);
    } else if d.TryStop? {
      StopAttemptFits(y.cfg, d.s, now, access);
    }
  }

  lemma ReopenedCarries(y: System, cfg: Config)
    requires Inv(y)
    ensures Reopened(y, cfg).calls == y.calls
    ensures Reopened(y, cfg).s.pending == y.s.pending || (!cfg.startupReconcile && Reopened(y, cfg).s.pending.None?)
  {
    hide Named, Restored;
    RestoredFits(cfg, y.disk);
  }

  /** While an action is pending, every call carries its key, and nothing takes its place before it is gone. */
  lemma StepCarries(y: System, e: Event)
    requires Inv(y) && Enabled(y, e) && y.s.pending.Some?
    ensures var t := Next(y, e);
            && Kept(y.s.pending.value, t.s.pending) && y.calls <= t.calls && AllCarry(t.calls[|y.calls|..], y.s.pending.value)
  {
    hide Inv, Round, Unfinished, Consumed, Reopened, Enabled;
    match e
    case Observed(p) => ConsumedKeeps(y, p);
    case Configured(_) =>
    case Evaluated(now, trigger, access, first, second) =>
      EnabledBegins(y, e);
      RoundCarries(y, now, trigger, access, first, second);
    case CutShort(now, trigger, access, first, again) =>
      UnfinishedCarries(y, now, trigger, access, first);
      UnfinishedKeeps(y, now, trigger, access, first);
      ReopenedCarries(Unfinished(y, now, trigger, access, first), again);
    case Restarts(again) => ReopenedCarries(y, again);
    case Reset =>
    case Overflow =>
  }

  lemma EnabledBegins(y: System, e: Event)
    requires Enabled(y, e) && e.Evaluated?
    ensures Begins(e.first)
  {
  }

  ghost predicate IsRun(y: System, events: seq<Event>, t: System)
    decreases |events|
  {
    if events == [] then y == t else Enabled(y, events[0]) && IsRun(Next(y, events[0]), events[1..], t)
  }

  /** Something is pending all along. */
  ghost predicate PendingThroughout(y: System, events: seq<Event>)
    decreases |events|
  {
    y.s.pending.Some? && (events == [] || PendingThroughout(Next(y, events[0]), events[1..]))
  }

  lemma CarryOn(a: seq<Call>, b: seq<Call>, c: seq<Call>, p: Pending)
    requires a <= b <= c && AllCarry(b[|a|..], p) && AllCarry(c[|b|..], p)
    ensures AllCarry(c[|a|..], p)
  {
    forall i | 0 <= i < |c| - |a| ensures Carries(c[|a|..][i], p) {
      if i < |b| - |a| {
        assert c[|a|..][i] == b[|a|..][i];
      } else {
        assert c[|a|..][i] == c[|b|..][i - (|b| - |a|)];
      }
    }
  }

  /**
   As long as an action stays pending, through retries, cooldowns, new positions, crashes and restarts, every call
   made to the cloud is for that action and carries that key.
   */
  lemma {:induction false} OneKeyWhilePending(y: System, events: seq<Event>, t: System)
    requires Inv(y) && IsRun(y, events, t) && PendingThroughout(y, events)
    ensures Inv(t) && y.calls <= t.calls && AllCarry(t.calls[|y.calls|..], y.s.pending.value)
    ensures t.s.pending.Some? && Kept(y.s.pending.value, t.s.pending)
    decreases |events|
  {
    hide Inv, Enabled, Next, Carries;
    if events != [] {
      var n := Next(y, events[0]);
      StepKeeps(y, events[0]);
      StepCarries(y, events[0]);
      OneKeyWhilePending(n, events[1..], t);
      SameCarriers(t.calls[|n.calls|..], y.s.pending.value, n.s.pending.value);
      CarryOn(y.calls, n.calls, t.calls, y.s.pending.value);
    }
  }

  lemma SameCarriers(calls: seq<Call>, p: Pending, q: Pending)
    requires AllCarry(calls, q) && p.key == q.key && p.action == q.action
    ensures AllCarry(calls, p)
  {
    forall i | 0 <= i < |calls| ensures Carries(calls[i], p) {
      assert Carries(calls[i], q);
    }
  }

  /** A call cut off by a crash leaves its action pending, so the reconciled restart asks again under the same key. */
  lemma CrashInCallIsRemembered(y: System, now: int, trigger: Trigger, access: Access, first: Option<Answer>, again: Config)
    requires Inv(y) && Named(again) && again.startupReconcile
    requires Unfinished(y, now, trigger, access, first).calls != y.calls
    ensures var t := Next(y, CutShort(now, trigger, access, first, again));
            t.s.pending.Some? && |t.calls| > |y.calls| && AllCarry(t.calls[|y.calls|..], t.s.pending.value)
  {
    hide Named, Decided, PendingFits, CandidatesNamed, Restored;
    var d := Decided(y.cfg, y.s, now, trigger);
    DecisionFits(y.cfg, y.s, now, trigger);
    if d.TryStart? {
      StartAttemptFits(y.cfg, d.s, now, access);
    } else if d.TryStop? {
      StopAttemptFits(y.cfg, d.s, now, access);
    }
    UnfinishedKeeps(y, now, trigger, access, first);
    RestoredFits(again, Unfinished(y, now, trigger, access, first).disk);
    assert y.calls + [] == y.calls;
  }

  // No start repeats the last successful one

  function LastBegun(calls: seq<Call>): Option<string> {
    if calls == [] then None else
      var last := calls[|calls| - 1];
      if last.StartCall? && last.begun then Some(last.key) else LastBegun(calls[..|calls| - 1])
  }

  predicate NoneRepeats(calls: seq<Call>) {
    forall i | 0 <= i < |calls| && calls[i].StartCall? :: LastBegun(calls[..i]) != Some(calls[i].key)
  }

  predicate Tracks(y: System) {
    (LastBegun(y.calls).Some? ==> LastBegun(y.calls).value == y.s.lastStart) && NoneRepeats(y.calls)
  }

  lemma Append(calls: seq<Call>, call: Call)
    requires NoneRepeats(calls) && (call.StartCall? ==> LastBegun(calls) != Some(call.key))
    ensures NoneRepeats(calls + [call])
    ensures LastBegun(calls + [call]) == if call.StartCall? && call.begun then Some(call.key) else LastBegun(calls)
  {
    var all := calls + [call];
    assert all[..|calls|] == calls;
    forall i | 0 <= i < |all| && all[i].StartCall? ensures LastBegun(all[..i]) != Some(all[i].key) {
      assert all[..i] == calls[..i];
    }
  }

  lemma AppendStops(calls: seq<Call>, u: Session, c: Candidate, first: Answer)
    requires NoneRepeats(calls)
    ensures NoneRepeats(calls + StopCalls(u, c, first)) && LastBegun(calls + StopCalls(u, c, first)) == LastBegun(calls)
  {
    var one, two := StopCall(c.key, c.node, u.active), StopCall(c.key, c.node, "");
    Append(calls, one);
    Append(calls + [one], two);
    assert calls + [one, two] == calls + [one] + [two];
  }

  lemma RoundTracks(y: System, now: int, trigger: Trigger, access: Access, first: Answer, second: Answer)
    requires Inv(y) && Tracks(y) && Begins(first)
    ensures Tracks(Round(y, now, trigger, access, first, second))
  {
    hide Named, Decided, StartAttempt, StopAttempt, StartAnswered, StopAnswered, StopCalls, PendingFits, CandidatesNamed, NoneRepeats, LastBegun;
    var d := Decided(y.cfg, y.s, now, trigger);
    DecisionFits(y.cfg, y.s, now, trigger);
    assert y.calls + [] == y.calls;
    if d.TryStart? {
      StartAttemptFits(y.cfg, d.s, now, access);
      var a := StartAttempt(y.cfg, d.s, now, access);
      if a.Call? {
        StartAnswerFits(y.cfg, a.s, a.candidate, first, now);
        Append(y.calls, StartCall(a.candidate.key, a.candidate.node, first.Accepted?));
      }
    } else if d.TryStop? {
      StopAttemptFits(y.cfg, d.s, now, access);
      var a := StopAttempt(y.cfg, d.s, now, access);
      if a.Call? {
        StopAnswerFits(y.cfg, a.s, a.candidate, first, second, now);
        AppendStops(y.calls, a.s, a.candidate, first);
      }
    }
  }

  lemma UnfinishedTracks(y: System, now: int, trigger: Trigger, access: Access, first: Option<Answer>)
    requires Inv(y) && Tracks(y)
    ensures Tracks(Unfinished(y, now, trigger, access, first))
  {
    hide Named, Decided, StartAttempt, StopAttempt, StopCalls, PendingFits, CandidatesNamed, NoneRepeats, LastBegun;
    var d := Decided(y.cfg, y.s, now, trigger);
    DecisionFits(y.cfg, y.s, now, trigger);
    assert y.calls + [] == y.calls;
    if d.TryStart? {
      StartAttemptFits(y.cfg, d.s, now, access);
      var a := StartAttempt(y.cfg, d.s, now, access);
      if a.Call? {
        Append(y.calls, StartCall(a.candidate.key, a.candidate.node, false));
      }
    } else if d.TryStop? {
      StopAttemptFits(y.cfg, d.s, now, access);
      var a := StopAttempt(y.cfg, d.s, now, access);
      if a.Call? {
        Append(y.calls, StopCall(a.candidate.key, a.candidate.node, a.s.active));
        if first.Some? {
          AppendStops(y.calls, a.s, a.candidate, first.value);
        }
      }
    }
  }

  lemma ReopenedTracks(y: System, cfg: Config)
    requires Inv(y) && Tracks(y)
    ensures Tracks(Reopened(y, cfg))
  {
    hide Named, Restored, NoneRepeats, LastBegun;
    RestoredFits(cfg, y.disk);
  }

  lemma StepTracks(y: System, e: Event)
    requires Inv(y) && Enabled(y, e) && Tracks(y)
    ensures Tracks(Next(y, e))
  {
    hide Inv, Round, Unfinished, Consumed, Reopened, Enabled, NoneRepeats, LastBegun;
    assert y.calls + [] == y.calls;
    match e
    case Observed(p) => ConsumedKeeps(y, p);
    case Configured(_) =>
    case Evaluated(now, trigger, access, first, second) =>
      EnabledBegins(y, e);
      RoundTracks(y, now, trigger, access, first, second);
    case CutShort(now, trigger, access, first, again) =>
      UnfinishedTracks(y, now, trigger, access, first);
      UnfinishedKeeps(y, now, trigger, access, first);
      ReopenedTracks(Unfinished(y, now, trigger, access, first), again);
    case Restarts(again) => ReopenedTracks(y, again);
    case Reset =>
    case Overflow =>
  }

  /** Over every run, restarts of either kind included, no start carries the key of the last start that succeeded. */
  lemma {:induction false} NoStartRepeatsTheLast(y: System, events: seq<Event>, t: System)
    requires Inv(y) && Tracks(y) && IsRun(y, events, t)
    ensures Inv(t) && NoneRepeats(t.calls)
    decreases |events|
  {
    hide Inv, Enabled, Next, NoneRepeats, LastBegun;
    if events != [] {
      StepKeeps(y, events[0]);
      StepTracks(y, events[0]);
      NoStartRepeatsTheLast(Next(y, events[0]), events[1..], t);
    }
  }

  lemma NewModule(cfg: Config)
    requires Named(cfg)
    ensures Inv(System(cfg, NEW, NEW, [])) && Tracks(System(cfg, NEW, NEW, []))
  {
  }

  // Delays

  /** Whatever the failure count and the jitter, a retry waits between nine seconds and four minutes. */
  lemma DelayIsBounded(action: Action, kind: RetryClass, failures: nat, jitter: byte)
    ensures 9 * SECOND <= Delay(action, kind, failures, jitter) <= 240 * SECOND
  {
  }

  /** An attested position never takes a node's last sighting back. */
  lemma AttestedPositionsMoveForward(cfg: Config, s: Session, p: Position)
    requires p.attested && p.node in s.facts
    ensures var t := Consumed(cfg, s, p);
            && t.facts[p.node].lastSeenAt >= s.facts[p.node].lastSeenAt
            && (p.at <= s.facts[p.node].lastSeenAt ==> t == s)
  {
  }
}

/** When repeated timeouts on a cached route may ask the Companion to forget that route. */
module RouteRecovery {

  const THRESHOLD: nat := 3

  datatype RouteMode = ZeroHop | ExplicitPath | Flood | UnknownRoute

  datatype RouteSource = ContactPath | ContactPathAndSent | ResponseSent | NoSource

  datatype RouteEvidence = RouteEvidence(mode: RouteMode, path: seq<string>, source: RouteSource)

  datatype Fingerprint = NoFingerprint | Of(mode: RouteMode, path: seq<string>)

  datatype Trace = NoTrace | ResetFailed | ResetAcknowledged | NewRoute

  predicate Recoverable(e: RouteEvidence) {
    e.mode.ZeroHop? || e.mode.ExplicitPath?
  }

  /** The cached route was read and the firmware confirmed a direct send over it. */
  predicate Candidate(e: RouteEvidence) {
    Recoverable(e) && e.source.ContactPathAndSent?
  }

  function FingerprintOf(e: RouteEvidence): Fingerprint {
    if !Recoverable(e) && !e.mode.Flood? then NoFingerprint else Of(e.mode, e.path)
  }

  /** One tracking run; the last two fields count what the guarantees are about. */
  datatype Recovery = Recovery(
    route: Fingerprint,
    routeGeneration: nat,
    episode: bool,
    acknowledged: bool,
    trace: Trace,
    stale: Fingerprint,
    failures: nat,
    resetRoute: Fingerprint,
    updates: nat,
    resetUpdates: nat,
    flooded: bool,
    attempts: nat,
    requested: bool,
    confirmed: nat,
    resets: nat)

  const IDLE := Recovery(NoFingerprint, 0, false, false, NoTrace, NoFingerprint, 0, NoFingerprint, 0, 0, false, 0, false, 0, 0)

  function ClearFailures(r: Recovery): Recovery {
    r.(stale := NoFingerprint, failures := 0)
  }

  function ObservePostReset(r: Recovery, e: RouteEvidence): Recovery {
    if r.episode && r.acknowledged && e.mode.Flood? && e.source.ResponseSent? then r.(flooded := true) else r
  }

  /** Evidence that the Companion's route is no longer the one that was reset. */
  predicate RouteChanged(r: Recovery, e: RouteEvidence) {
    FingerprintOf(e) != r.resetRoute || r.flooded || r.updates != r.resetUpdates
  }

  function Rearm(r: Recovery, e: RouteEvidence): Recovery {
    if !r.episode || !r.acknowledged || !RouteChanged(r, e) then r else
      ClearFailures(r.(episode := false, acknowledged := false, resetRoute := NoFingerprint, resetUpdates := 0,
                       flooded := false, trace := NewRoute))
  }

  function Note(r: Recovery, e: RouteEvidence): Recovery {
    if FingerprintOf(e).NoFingerprint? then ClearFailures(r)
    else if r.stale != FingerprintOf(e) then r.(stale := FingerprintOf(e), failures := 1)
    else r.(failures := r.failures + 1)
  }

  /** A poll that failed, up to the point where a reset is requested or not. */
  function TimedOut(r: Recovery, timeout: bool, canReset: bool, cancelled: bool, e: RouteEvidence): Recovery {
    if !timeout || !canReset || !Candidate(e) then ClearFailures(ObservePostReset(r, e)) else
      var n := Note(Rearm(r, e), e).(confirmed := r.confirmed + 1);
      if n.failures < THRESHOLD || cancelled then n
      else if n.episode && (n.acknowledged || n.failures % THRESHOLD != 0) then n
      else n.(episode := true, attempts := if n.episode then n.attempts + 1 else 1, requested := true, resets := n.resets + 1)
  }

  function ResetAnswered(r: Recovery, ok: bool): Recovery {
    if ok then r.(requested := false, acknowledged := true, resetRoute := r.stale, resetUpdates := r.updates, flooded := false, trace := ResetAcknowledged)
    else r.(requested := false, trace := ResetFailed)
  }

  function Establish(r: Recovery, e: RouteEvidence): Recovery {
    var f := FingerprintOf(e);
    if f.NoFingerprint? then r else
      var g := if f != r.route then r.(route := f, routeGeneration := r.routeGeneration + 1) else r;
      if r.episode then g.(episode := false, acknowledged := false, resetRoute := NoFingerprint, resetUpdates := 0, flooded := false) else g
  }

  function Succeeded(r: Recovery, e: RouteEvidence): Recovery {
    Establish(ClearFailures(r).(trace := NoTrace), e)
  }

  function Recorded(r: Recovery): Recovery {
    r.(trace := NoTrace)
  }

  function PathUpdated(r: Recovery): Recovery {
    r.(updates := r.updates + 1)
  }

  /** Without a direct send over a cached route there is nothing to count, and a streak is over. */
  lemma UnconfirmedCountsNothing(r: Recovery, timeout: bool, canReset: bool, cancelled: bool, e: RouteEvidence)
    requires !timeout || !canReset || e.source != ContactPathAndSent || e.mode == Flood || e.mode == UnknownRoute
    ensures var t := TimedOut(r, timeout, canReset, cancelled, e);
            && t.confirmed == r.confirmed && t.resets == r.resets && t.requested == r.requested && t.failures == 0
            && t.episode == r.episode && t.acknowledged == r.acknowledged
  {
  }

  /** A direct timeout over a cached route counts; another route than the last one starts a new streak. */
  lemma ConfirmedCounts(r: Recovery, cancelled: bool, e: RouteEvidence)
    requires (e.mode == ZeroHop || e.mode == ExplicitPath) && e.source == ContactPathAndSent
    ensures var t := TimedOut(r, true, true, cancelled, e);
            && t.confirmed == r.confirmed + 1 && t.stale == Of(e.mode, e.path)
            && (r.stale != Of(e.mode, e.path) ==> t.failures == 1)
            && (r.stale == Of(e.mode, e.path) && !(r.episode && r.acknowledged) ==> t.failures == r.failures + 1)
            && (cancelled ==> t.resets == r.resets)
  {
  }

  /** A success on a known route ends the episode and numbers the route exactly when it is another one. */
  lemma SuccessEstablishes(r: Recovery, e: RouteEvidence)
    ensures var t := Succeeded(r, e);
            var known := e.mode != UnknownRoute;
            && t.failures == 0 && t.trace.NoTrace?
            && (known ==> !t.episode && t.route == Of(e.mode, e.path))
            && (known && r.route == Of(e.mode, e.path) ==> t.routeGeneration == r.routeGeneration)
            && (known && r.route != Of(e.mode, e.path) ==> t.routeGeneration == r.routeGeneration + 1)
            && (!known ==> t.episode == r.episode && t.acknowledged == r.acknowledged && t.route == r.route && t.routeGeneration == r.routeGeneration)
  {
  }

  // Runs

  datatype Event =
    | PollFailed(timeout: bool, canReset: bool, cancelled: bool, route: RouteEvidence)
    | Answer(ok: bool)
    | FailureRecorded
    | PollSucceeded(route: RouteEvidence)
    | Notice
    | Restart

  /** The polling goroutine waits for the answer to a reset before it goes on. */
  predicate Enabled(r: Recovery, e: Event) {
    match e
    case PollFailed(_, _, _, _) => !r.requested
    case Answer(_) => r.requested
    case FailureRecorded => !r.requested
    case PollSucceeded(_) => !r.requested
    case Notice => true
    case Restart => true
  }

  function Next(r: Recovery, e: Event): Recovery
    requires Enabled(r, e)
  {
    match e
    case PollFailed(timeout, canReset, cancelled, route) => TimedOut(r, timeout, canReset, cancelled, route)
    case Answer(ok) => ResetAnswered(r, ok)
    case FailureRecorded => Recorded(r)
    case PollSucceeded(route) => Succeeded(r, route)
    case Notice => PathUpdated(r)
    case Restart => IDLE
  }

  predicate IsRun(r: Recovery, events: seq<Event>, t: Recovery)
    decreases |events|
  {
    if events == [] then r == t else Enabled(r, events[0]) && IsRun(Next(r, events[0]), events[1..], t)
  }

  /** Confirmed timeouts not yet spent on a reset. */
  function Credit(r: Recovery): nat {
    if r.episode then (if r.acknowledged then 0 else r.failures % THRESHOLD) else r.failures
  }

  predicate Inv(r: Recovery) {
    && THRESHOLD * r.resets + Credit(r) <= r.confirmed
    && (r.acknowledged ==> r.episode)
    && (r.requested ==> r.episode && !r.acknowledged && !r.stale.NoFingerprint?)
    && (r.failures > 0 <==> !r.stale.NoFingerprint?)
    && (!r.acknowledged ==> r.resetRoute.NoFingerprint? && r.resetUpdates == 0 && !r.flooded)
  }

  lemma StepKeeps(r: Recovery, e: Event)
    requires Inv(r) && Enabled(r, e)
    ensures Inv(Next(r, e))
  {
  }

  /** Over a whole run, every reset is paid for by three confirmed stale-route timeouts of its own. */
  lemma {:induction false} ResetsAreAmortised(r: Recovery, events: seq<Event>, t: Recovery)
    requires Inv(r) && IsRun(r, events, t)
    ensures Inv(t) && THRESHOLD * t.resets <= t.confirmed
    decreases |events|
  {
    hide Next, Enabled;
    if events != [] {
      StepKeeps(r, events[0]);
      ResetsAreAmortised(Next(r, events[0]), events[1..], t);
    }
  }

  function Notices(events: seq<Event>): nat {
    if events == [] then 0 else (if events[0].Notice? then 1 else 0) + Notices(events[1..])
  }

  /** Path updates are counted one by one until tracking restarts. */
  lemma {:induction false} NoticesAreCounted(r: Recovery, events: seq<Event>, t: Recovery)
    requires IsRun(r, events, t) && forall i | 0 <= i < |events| :: !events[i].Restart?
    ensures t.updates == r.updates + Notices(events)
    decreases |events|
  {
    if events != [] {
      assert Next(r, events[0]).updates == r.updates + if events[0].Notice? then 1 else 0;
      hide Next;
      NoticesAreCounted(Next(r, events[0]), events[1..], t);
    }
  }

  // The latch

  /** After an acknowledged reset, with nothing since to suggest that the route has changed. */
  predicate Latched(r: Recovery) {
    r.episode && r.acknowledged && !r.flooded && r.updates == r.resetUpdates && !r.requested
  }

  /** What lifts the latch. */
  predicate Lifts(e: Event, resetRoute: Fingerprint) {
    match e
    case PollFailed(timeout, canReset, _, route) =>
      if timeout && canReset && Candidate(route) then FingerprintOf(route) != resetRoute
      else route.mode.Flood? && route.source.ResponseSent?
    case PollSucceeded(route) => !FingerprintOf(route).NoFingerprint?
    case Notice => true
    case Restart => true
    case _ => false
  }

  predicate NoneLift(events: seq<Event>, resetRoute: Fingerprint) {
    forall i | 0 <= i < |events| :: !Lifts(events[i], resetRoute)
  }

  lemma AcknowledgedLatches(r: Recovery)
    requires Inv(r) && r.requested
    ensures var t := ResetAnswered(r, true); Latched(t) && t.resetRoute == r.stale && !t.resetRoute.NoFingerprint?
  {
  }

  /** While nothing lifts the latch, no further reset is requested. */
  lemma {:induction false} LatchHolds(r: Recovery, events: seq<Event>, t: Recovery)
    requires Latched(r) && IsRun(r, events, t) && NoneLift(events, r.resetRoute)
    ensures Latched(t) && t.resets == r.resets && t.resetRoute == r.resetRoute
    decreases |events|
  {
    if events != [] {
      assert !Lifts(events[0], r.resetRoute);
      var n := Next(r, events[0]);
      assert Latched(n) && n.resets == r.resets && n.resetRoute == r.resetRoute;
      LatchHolds(n, events[1..], t);
    }
  }

  /** Each event that lifts the latch does so: the next confirmed timeout, if not this one, starts a new streak of one. */
  lemma LiftedStartsAfresh(r: Recovery, e: Event, route: RouteEvidence)
    requires Latched(r) && Lifts(e, r.resetRoute) && Enabled(r, e) && Candidate(route)
    ensures var n := Next(r, e);
            var m := if e.PollFailed? && e.timeout && e.canReset && Candidate(e.route) then n else TimedOut(n, true, true, false, route);
            !m.episode && !m.acknowledged && m.failures == 1 && m.resets == (if e.Restart? then 0 else r.resets)
  {
  }

  // The threshold is met

  /** Outside an episode, three timeouts in a row on one route do request a reset, and not before the third. */
  lemma ThreeTimeoutsReset(r: Recovery, route: RouteEvidence)
    requires !r.episode && !r.requested && r.failures == 0 && r.stale.NoFingerprint? && Candidate(route)
    ensures var a := TimedOut(r, true, true, false, route);
            var b := TimedOut(a, true, true, false, route);
            var c := TimedOut(b, true, true, false, route);
            && !a.requested && !b.requested && c.requested
            && a.resets == b.resets == r.resets && c.resets == r.resets + 1 && c.attempts == 1
  {
  }

  /** A reset the Companion refused is requested again after exactly three further timeouts on the same route. */
  lemma RefusedResetIsRepeated(r: Recovery, route: RouteEvidence)
    requires Inv(r) && r.requested && r.failures % THRESHOLD == 0 && Candidate(route) && FingerprintOf(route) == r.stale
    ensures var a := TimedOut(ResetAnswered(r, false), true, true, false, route);
            var b := TimedOut(a, true, true, false, route);
            var c := TimedOut(b, true, true, false, route);
            && a.resets == b.resets == r.resets && c.requested && c.resets == r.resets + 1 && c.attempts == r.attempts + 1
  {
  }
}

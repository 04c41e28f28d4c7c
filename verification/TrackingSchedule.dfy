/** How often a tracked contact is polled: motion cadence, back-off and the spacing of requests. */
module TrackingSchedule {
  import opened Common

  datatype Motion = UnknownMotion | Stationary | Slow | Fast

  datatype Policy = Policy(
    unknown: int,
    stationary: int,
    slow: int,
    fast: int,
    minimum: int,
    maximumBackoff: int,
    stationaryKmh: real,
    slowKmh: real)

  const DEFAULT := Policy(30 * SECOND, 45 * SECOND, 30 * SECOND, 15 * SECOND, 10 * SECOND, 300 * SECOND, 1.0, 8.0)

  function Or(value: int, fallback: int): int {
    if value <= 0 then fallback else value
  }

  function Normalised(p: Policy): Policy {
    var minimum := Or(p.minimum, DEFAULT.minimum);
    var unknown := Max(Or(p.unknown, DEFAULT.unknown), minimum);
    var stationaryKmh := if p.stationaryKmh <= 0.0 then DEFAULT.stationaryKmh else p.stationaryKmh;
    Policy(unknown,
           Max(Or(p.stationary, DEFAULT.stationary), minimum),
           Max(Or(p.slow, DEFAULT.slow), minimum),
           Max(Or(p.fast, DEFAULT.fast), minimum),
           minimum,
           Max(Or(p.maximumBackoff, DEFAULT.maximumBackoff), unknown),
           stationaryKmh,
           if p.slowKmh <= stationaryKmh then DEFAULT.slowKmh else p.slowKmh)
  }

  predicate Ordered(p: Policy) {
    0 < p.minimum <= p.unknown <= p.maximumBackoff && p.minimum <= p.stationary && p.minimum <= p.slow && p.minimum <= p.fast
  }

  /** Normalising orders any policy, and an ordered one keeps its durations. */
  lemma NormalisedIsOrdered(p: Policy)
    ensures Ordered(Normalised(p))
    ensures Ordered(p) ==> Normalised(p) == p.(stationaryKmh := Normalised(p).stationaryKmh, slowKmh := Normalised(p).slowKmh)
  {
  }

  /** What is not set is taken from the default policy, and no interval may be below the minimum. */
  lemma DefaultsExactly(p: Policy)
    ensures var n := Normalised(p);
            && n.minimum == (if p.minimum > 0 then p.minimum else 10 * SECOND)
            && n.unknown == Max(if p.unknown > 0 then p.unknown else 30 * SECOND, n.minimum)
            && n.stationary == Max(if p.stationary > 0 then p.stationary else 45 * SECOND, n.minimum)
            && n.slow == Max(if p.slow > 0 then p.slow else 30 * SECOND, n.minimum)
            && n.fast == Max(if p.fast > 0 then p.fast else 15 * SECOND, n.minimum)
            && n.maximumBackoff == Max(if p.maximumBackoff > 0 then p.maximumBackoff else 300 * SECOND, n.unknown)
            && n.stationaryKmh == (if p.stationaryKmh > 0.0 then p.stationaryKmh else 1.0)
            && n.slowKmh == (if p.slowKmh > n.stationaryKmh then p.slowKmh else 8.0)
  {
  }

  predicate WholeSeconds(p: Policy) {
    p.unknown % SECOND == 0 && p.stationary % SECOND == 0 && p.slow % SECOND == 0 && p.fast % SECOND == 0
    && p.minimum % SECOND == 0 && p.maximumBackoff % SECOND == 0
  }

  // State

  /** An error is the adapter's own when it wraps a disconnect; only the bare one is later recognised by its text. */
  datatype Failure = Adapter(bare: bool) | Remote

  datatype Schedule = Schedule(
    motion: Motion,
    pending: Motion,
    pendingCount: nat,
    seconds: int,
    failures: nat,
    session: bool,
    adapterLost: bool)

  function IntervalFor(p: Policy, m: Motion): int {
    match m
    case Stationary => p.stationary
    case Slow => p.slow
    case Fast => p.fast
    case UnknownMotion => p.unknown
  }

  function Started(p: Policy, session: bool): Schedule {
    Schedule(UnknownMotion, UnknownMotion, 0, p.unknown / SECOND, 0, session, false)
  }

  /** What a position report says about motion, once coordinates, age, distance and speed have been checked. */
  datatype Fix = Unusable | Baseline | Rejected | Moved(speed: real)

  function Classify(p: Policy, speed: real): Motion {
    if speed < p.stationaryKmh then Stationary else if speed <= p.slowKmh then Slow else Fast
  }

  function SetMotion(s: Schedule, m: Motion): Schedule {
    s.(motion := m, pending := UnknownMotion, pendingCount := 0)
  }

  function ApplyMotion(s: Schedule, candidate: Motion): Schedule {
    if s.motion == candidate then s.(pending := UnknownMotion, pendingCount := 0)
    else if s.motion.UnknownMotion? then SetMotion(s, candidate)
    else if s.pending != candidate then s.(pending := candidate, pendingCount := 1)
    else if s.pendingCount + 1 >= 2 then SetMotion(s, candidate)
    else s.(pendingCount := s.pendingCount + 1)
  }

  function ApplyFix(p: Policy, s: Schedule, fix: Fix): Schedule {
    match fix
    case Unusable => SetMotion(s, UnknownMotion)
    case Baseline => SetMotion(s, UnknownMotion)
    case Rejected => s
    case Moved(speed) => ApplyMotion(s, Classify(p, speed))
  }

  function Succeeded(p: Policy, s: Schedule, fix: Fix): Schedule {
    var t := ApplyFix(p, s, fix);
    t.(seconds := IntervalFor(p, t.motion) / SECOND, failures := 0, adapterLost := false)
  }

  function FailureInterval(p: Policy, s: Schedule, f: Failure): int {
    if s.session && !f.Adapter? then IntervalFor(p, s.motion) else
      var current := s.seconds * SECOND;
      var next := if s.failures == 1 then Max(p.unknown, current) else current * 2;
      Max(Min(next, p.maximumBackoff), p.minimum)
  }

  function Failed(p: Policy, s: Schedule, f: Failure): Schedule {
    var t := s.(failures := s.failures + 1, adapterLost := f == Adapter(true));
    t.(seconds := FailureInterval(p, t, f) / SECOND)
  }

  /** A session that takes over resumes the motion cadence unless the adapter is gone. */
  function TakenOver(p: Policy, s: Schedule, session: bool): (Schedule, bool) {
    if s.session == session then (s, false)
    else if !session || s.adapterLost then (s.(session := session), false)
    else (s.(session := session, seconds := IntervalFor(p, s.motion) / SECOND), true)
  }

  datatype Event = Success(fix: Fix) | Failure(f: Failure) | TakeOver(session: bool) | Start(session: bool)

  function Next(p: Policy, s: Schedule, e: Event): Schedule {
    match e
    case Success(fix) => Succeeded(p, s, fix)
    case Failure(f) => Failed(p, s, f)
    case TakeOver(session) => TakenOver(p, s, session).0
    case Start(session) => Started(p, session)
  }

  function Run(p: Policy, s: Schedule, events: seq<Event>): Schedule {
    if events == [] then s else Next(p, Run(p, s, events[..|events| - 1]), events[|events| - 1])
  }

  // What each outcome does

  /** Tracking starts with nothing known, at the interval for that. */
  lemma StartsUnknown(p: Policy, session: bool)
    ensures var s := Started(p, session);
            && s.motion.UnknownMotion? && s.pendingCount == 0 && s.failures == 0 && !s.adapterLost && s.session == session
            && s.seconds == p.unknown / SECOND
  {
  }

  /** After a success the interval is the one of the motion that then holds, each motion's own. */
  lemma SuccessSetsInterval(p: Policy, s: Schedule, fix: Fix)
    ensures var t := Succeeded(p, s, fix);
            && (t.motion.UnknownMotion? ==> t.seconds == p.unknown / SECOND) && (t.motion.Stationary? ==> t.seconds == p.stationary / SECOND)
            && (t.motion.Slow? ==> t.seconds == p.slow / SECOND) && (t.motion.Fast? ==> t.seconds == p.fast / SECOND)
            && t.failures == 0 && !t.adapterLost && t.session == s.session
  {
  }

  /** From an unknown motion one plausible sample decides; without a usable fix the motion is unknown; a rejected one changes nothing. */
  lemma SampleSetsMotion(p: Policy, s: Schedule, fix: Fix)
    ensures var t := ApplyFix(p, s, fix);
            && (fix.Unusable? || fix.Baseline? ==> t.motion.UnknownMotion?)
            && (fix.Rejected? ==> t == s)
            && (t.motion != s.motion || fix.Unusable? || fix.Baseline? || (fix.Moved? && Classify(p, fix.speed) == s.motion) ==>
                  t.pending.UnknownMotion? && t.pendingCount == 0)
            && (fix.Moved? && s.motion.UnknownMotion? ==>
                  && (t.motion.Stationary? <==> fix.speed < p.stationaryKmh)
                  && (t.motion.Slow? <==> p.stationaryKmh <= fix.speed <= p.slowKmh)
                  && (t.motion.Fast? <==> p.stationaryKmh <= fix.speed && p.slowKmh < fix.speed))
            && (fix.Moved? && Classify(p, fix.speed) == s.motion ==> t.motion == s.motion && t.pendingCount == 0)
            && (fix.Moved? && !s.motion.UnknownMotion? && Classify(p, fix.speed) != s.motion ==>
                  if s.pending == Classify(p, fix.speed) && s.pendingCount >= 1 then t.motion == Classify(p, fix.speed)
                  else t.motion == s.motion && t.pending == Classify(p, fix.speed))
  {
  }

  /** A session goes on at the cadence of the motion it last knew after a remote failure; every other failure backs off. */
  lemma FailureSetsInterval(p: Policy, s: Schedule, f: Failure)
    requires Ordered(p)
    ensures var t := Failed(p, s, f);
            && t.failures == s.failures + 1 && t.motion == s.motion && t.session == s.session && (t.adapterLost <==> f == Adapter(true))
            && (s.session && f.Remote? ==>
                  && (s.motion.UnknownMotion? ==> t.seconds == p.unknown / SECOND) && (s.motion.Stationary? ==> t.seconds == p.stationary / SECOND)
                  && (s.motion.Slow? ==> t.seconds == p.slow / SECOND) && (s.motion.Fast? ==> t.seconds == p.fast / SECOND))
            && (!s.session || f.Adapter? ==>
                  t.seconds == Max(p.minimum, Min(p.maximumBackoff, if s.failures == 0 then Max(p.unknown, s.seconds * SECOND) else 2 * s.seconds * SECOND)) / SECOND)
  {
  }

  /** A take-over wakes the loop exactly when a session takes over with the adapter there, and then restores the motion's cadence. */
  lemma TakeOverExactly(p: Policy, s: Schedule, session: bool)
    ensures var (t, woken) := TakenOver(p, s, session);
            && (woken <==> session && !s.session && !s.adapterLost) && t.session == session && t.motion == s.motion
            && t.seconds == (if woken then Succeeded(p, s, Rejected).seconds else s.seconds)
  {
  }

  // Bounds

  function Longest(p: Policy): int {
    Max(Max(p.maximumBackoff, p.stationary), Max(p.slow, p.fast))
  }

  /** Intervals are kept in whole seconds, so a fraction of a second of the policy is lost. */
  predicate Bounded(p: Policy, s: Schedule) {
    p.minimum - SECOND < s.seconds * SECOND <= Longest(p) && 0 <= s.seconds
  }

  lemma WholePart(n: int)
    requires 0 <= n
    ensures n - SECOND < n / SECOND * SECOND <= n && 0 <= n / SECOND
    ensures n % SECOND == 0 ==> n / SECOND * SECOND == n
  {
  }

  predicate Between(p: Policy, interval: int) {
    p.minimum <= interval <= Longest(p)
  }

  lemma IntervalsFit(p: Policy, s: Schedule, f: Failure)
    requires Ordered(p)
    ensures Between(p, IntervalFor(p, s.motion)) && Between(p, FailureInterval(p, s, f)) && Between(p, p.unknown)
  {
  }

  lemma StepBounded(p: Policy, s: Schedule, e: Event)
    requires Ordered(p) && Bounded(p, s)
    ensures Bounded(p, Next(p, s, e))
    ensures WholeSeconds(p) && p.minimum <= s.seconds * SECOND ==> p.minimum <= Next(p, s, e).seconds * SECOND
  {
    hide IntervalFor, FailureInterval, Longest, ApplyFix;
    match e
    case Success(fix) =>
      IntervalsFit(p, ApplyFix(p, s, fix), Remote);
      Kept(p, IntervalFor(p, ApplyFix(p, s, fix).motion));
    case Failure(f) =>
      var t := s.(failures := s.failures + 1, adapterLost := f == Adapter(true));
      IntervalsFit(p, t, f);
      Kept(p, FailureInterval(p, t, f));
    case TakeOver(_) =>
      IntervalsFit(p, s, Remote);
      Kept(p, IntervalFor(p, s.motion));
    case Start(_) =>
      IntervalsFit(p, s, Remote);
      Kept(p, p.unknown);
  }

  lemma Kept(p: Policy, interval: int)
    requires Between(p, interval) && 0 < p.minimum
    ensures p.minimum - SECOND < interval / SECOND * SECOND <= Longest(p) && 0 <= interval / SECOND
    ensures p.minimum % SECOND == 0 ==> p.minimum <= interval / SECOND * SECOND
  {
  }

  /** Over every run the interval stays between the minimum and the longest the policy names. */
  lemma {:induction false} IntervalStaysBounded(p: Policy, session: bool, events: seq<Event>)
    requires Ordered(p)
    ensures Bounded(p, Run(p, Started(p, session), events))
    ensures WholeSeconds(p) ==> p.minimum <= Run(p, Started(p, session), events).seconds * SECOND
    decreases |events|
  {
    if events == [] {
      IntervalsFit(p, Started(p, session), Remote);
      Kept(p, p.unknown);
    } else {
      IntervalStaysBounded(p, session, events[..|events| - 1]);
      StepBounded(p, Run(p, Started(p, session), events[..|events| - 1]), events[|events| - 1]);
    }
  }

  /** What is left of an interval once it has been cut to whole seconds. */
  function Cut(interval: int): int {
    interval / SECOND * SECOND
  }

  /** With the stationary speed above the slow one, no speed counts as slow. */
  predicate HasSlow(p: Policy) {
    p.stationaryKmh <= p.slowKmh
  }

  /** No motion interval that can apply falls below the minimum when it is cut. */
  predicate KeepsMinimum(p: Policy) {
    && p.minimum <= Cut(p.unknown) && p.minimum <= Cut(p.stationary) && p.minimum <= Cut(p.fast)
    && (HasSlow(p) ==> p.minimum <= Cut(p.slow))
  }

  lemma CutGrows(a: int, b: int)
    requires a <= b
    ensures Cut(a) <= Cut(b) <= b
  {
  }

  lemma CutSeconds(s: int)
    ensures Cut(s * SECOND) == s * SECOND
  {
  }

  /** The interval is at least the minimum, and a motion no speed stands for is not there. */
  predicate AboveMinimum(p: Policy, s: Schedule) {
    p.minimum <= s.seconds * SECOND && (!HasSlow(p) ==> !s.motion.Slow?)
  }

  lemma StartsAboveMinimum(p: Policy, session: bool)
    requires KeepsMinimum(p)
    ensures AboveMinimum(p, Started(p, session))
  {
  }

  lemma StepKeepsMinimum(p: Policy, s: Schedule, e: Event)
    requires Ordered(p) && KeepsMinimum(p) && AboveMinimum(p, s)
    ensures AboveMinimum(p, Next(p, s, e))
  {
    CutGrows(p.unknown, p.maximumBackoff);
    CutSeconds(s.seconds);
    CutSeconds(2 * s.seconds);
  }

  lemma {:induction false} MinimumIsKept(p: Policy, session: bool, events: seq<Event>)
    requires Ordered(p) && KeepsMinimum(p)
    ensures AboveMinimum(p, Run(p, Started(p, session), events))
    decreases |events|
  {
    if events != [] {
      MinimumIsKept(p, session, events[..|events| - 1]);
      StepKeepsMinimum(p, Run(p, Started(p, session), events[..|events| - 1]), events[|events| - 1]);
    }
  }

  lemma OneSample(p: Policy, session: bool, speed: real)
    ensures Run(p, Started(p, session), [Success(Moved(speed))]).seconds == IntervalFor(p, Classify(p, speed)) / SECOND
  {
    var events := [Success(Moved(speed))];
    assert events[..0] == [];
    assert Run(p, Started(p, session), events[..0]) == Started(p, session);
    assert Run(p, Started(p, session), events) == Succeeded(p, Started(p, session), Moved(speed));
  }

  /** The minimum interval is kept over every run exactly by the policies whose motion intervals survive the cut. */
  lemma MinimumIsKeptExactly(p: Policy)
    requires Ordered(p) && 0.0 < p.stationaryKmh
    ensures KeepsMinimum(p) <==> forall session, events :: p.minimum <= Run(p, Started(p, session), events).seconds * SECOND
  {
    if KeepsMinimum(p) {
      forall session, events ensures p.minimum <= Run(p, Started(p, session), events).seconds * SECOND {
        MinimumIsKept(p, session, events);
      }
    } else {
      OneSample(p, false, 0.0);
      OneSample(p, false, p.stationaryKmh);
      OneSample(p, false, p.slowKmh + p.stationaryKmh);
      OneSample(p, false, if HasSlow(p) then p.slowKmh + 1.0 else p.stationaryKmh);
      assert Run(p, Started(p, false), []).seconds == p.unknown / SECOND;
    }
  }

  /** What normalising guarantees, and the whole-second policies among the results. */
  lemma NormalisedKeepsMinimum(p: Policy)
    ensures Ordered(Normalised(p)) && 0.0 < Normalised(p).stationaryKmh
    ensures WholeSeconds(Normalised(p)) ==> KeepsMinimum(Normalised(p))
  {
    var n := Normalised(p);
    if WholeSeconds(n) {
      WholePart(n.unknown);
      WholePart(n.stationary);
      WholePart(n.slow);
      WholePart(n.fast);
    }
  }

  /** A policy with a fraction of a second is not kept: its interval can end below its own minimum. */
  lemma FractionsAreLost(session: bool) returns (p: Policy)
    ensures Normalised(p) == p && Ordered(p) && Run(p, Started(p, session), []).seconds * SECOND < p.minimum
  {
    p := DEFAULT.(unknown := 10 * SECOND + 1, minimum := 10 * SECOND + 1, fast := 15 * SECOND);
  }

  // Back-off and hysteresis

  function Doubled(base: int, k: nat): int {
    if k == 0 then base else 2 * Doubled(base, k - 1)
  }

  function FailedTimes(p: Policy, s: Schedule, f: Failure, k: nat): Schedule {
    if k == 0 then s else Failed(p, FailedTimes(p, s, f, k - 1), f)
  }

  predicate BacksOff(s: Schedule, f: Failure) {
    !s.session || f.Adapter?
  }

  lemma {:induction false} DoublingGrows(base: int, k: nat)
    requires base > 0
    ensures Doubled(base, k) >= base
  {
    if k > 0 {
      DoublingGrows(base, k - 1);
    }
  }

  lemma MultipleIsWhole(k: int)
    ensures (k * SECOND) % SECOND == 0 && 2 * (k * SECOND) == (2 * k) * SECOND
  {
  }

  /** An interval chosen among whole seconds is kept by counting it in seconds. */
  lemma ChosenIsKept(next: int, maximum: int, minimum: int)
    requires 0 < minimum && next % SECOND == 0 && maximum % SECOND == 0 && minimum % SECOND == 0
    ensures var chosen := Max(Min(next, maximum), minimum); chosen / SECOND * SECOND == chosen
  {
    var chosen := Max(Min(next, maximum), minimum);
    assert chosen == next || chosen == maximum || chosen == minimum;
    WholePart(chosen);
  }

  lemma OneMoreFailure(p: Policy, s: Schedule, f: Failure)
    requires Ordered(p) && WholeSeconds(p) && BacksOff(s, f) && 0 <= s.seconds
    requires s.failures > 0 ==> p.unknown <= s.seconds * SECOND
    ensures var t := Failed(p, s, f);
            var next := if s.failures == 0 then Max(p.unknown, s.seconds * SECOND) else 2 * (s.seconds * SECOND);
            t.seconds * SECOND == Min(next, p.maximumBackoff) && t.failures == s.failures + 1 && t.session == s.session && t.motion == s.motion
  {
    var current := s.seconds * SECOND;
    var next := if s.failures == 0 then Max(p.unknown, current) else 2 * current;
    MultipleIsWhole(s.seconds);
    MultipleIsWhole(2 * s.seconds);
    ChosenIsKept(next, p.maximumBackoff, p.minimum);
    assert FailureInterval(p, s.(failures := s.failures + 1, adapterLost := f == Adapter(true)), f) == Min(next, p.maximumBackoff);
  }

  /** The k-th failure in a row waits the base interval doubled k - 1 times, up to the maximum. */
  lemma {:induction false} BackoffIsExponential(p: Policy, s: Schedule, f: Failure, k: nat)
    requires Ordered(p) && WholeSeconds(p) && s.failures == 0 && BacksOff(s, f) && k >= 1
    requires 0 <= s.seconds * SECOND <= p.maximumBackoff
    ensures var base := Max(p.unknown, s.seconds * SECOND);
            var t := FailedTimes(p, s, f, k);
            && t.seconds * SECOND == Min(Doubled(base, k - 1), p.maximumBackoff)
            && t.failures == k && t.session == s.session && t.motion == s.motion
    decreases k
  {
    var base := Max(p.unknown, s.seconds * SECOND);
    if k == 1 {
      assert FailedTimes(p, s, f, 0) == s;
      OneMoreFailure(p, s, f);
    } else {
      hide Failed, WholeSeconds;
      BackoffIsExponential(p, s, f, k - 1);
      DoublingGrows(base, k - 2);
      OneMoreFailure(p, FailedTimes(p, s, f, k - 1), f);
    }
  }

  /** A known motion gives way to another only after two samples in a row that agree on it. */
  lemma MotionNeedsTwoSamples(s: Schedule, a: Motion, b: Motion)
    requires !s.motion.UnknownMotion? && s.pending.UnknownMotion? && !a.UnknownMotion? && !b.UnknownMotion?
    ensures ApplyMotion(s, a).motion == s.motion
    ensures ApplyMotion(ApplyMotion(s, a), b).motion == if a == b then b else s.motion
  {
  }
}

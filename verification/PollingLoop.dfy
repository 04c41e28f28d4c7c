/** The polling loop around the schedule: a poll, the interval read after it, the timer, and the next poll. */
module PollingLoop {
  import opened Common
  import opened TrackingSchedule

  function NextRequestAt(now: int, requestAt: Option<int>, interval: int, session: bool, tagged: bool): int {
    if !session || !tagged || requestAt.None? then now + interval else Max(requestAt.value + interval, now)
  }

  /** A session counts a tagged request from its start, and everything else is counted from the time the poll was over. */
  lemma NextRequestExactly(now: int, requestAt: Option<int>, interval: int, session: bool, tagged: bool)
    ensures var next := NextRequestAt(now, requestAt, interval, session, tagged);
            && (session && tagged && requestAt.Some? && now <= requestAt.value + interval ==> next == requestAt.value + interval)
            && (session && tagged && requestAt.Some? && now > requestAt.value + interval ==> next == now)
            && (!session || !tagged || requestAt.None? ==> next == now + interval)
  {
  }

  /** Where the loop is between two of its steps. */
  datatype Place =
    | Waiting(due: int)
    | Polling(startedAt: int)
    | Polled(requestedAt: int, tagged: bool)

  /** The loop with the requests it has sent, the interval scheduled after each, and a wake-up not yet taken. */
  datatype Loop = Loop(place: Place, schedule: Schedule, clock: int, woken: bool, requests: seq<int>, intervals: seq<int>)

  datatype Step =
    | Begin(at: int)
    | End(outcome: Event, requestedAt: int, tagged: bool, at: int)
    | Plan(at: int)
    | Control(session: bool)

  /** Time does not run backwards; the timer or a wake-up starts a poll, and a request goes out during its poll. */
  predicate Enabled(l: Loop, e: Step) {
    match e
    case Begin(at) => l.place.Waiting? && l.clock <= at && (l.place.due <= at || l.woken)
    case End(outcome, requestedAt, _, at) =>
      l.place.Polling? && (outcome.Success? || outcome.Failure?) && l.place.startedAt <= requestedAt <= at && l.clock <= at
    case Plan(at) => l.place.Polled? && l.clock <= at
    case Control(_) => true
  }

  function Interval(s: Schedule): int {
    s.seconds * SECOND
  }

  function Next(p: Policy, l: Loop, e: Step): Loop
    requires Enabled(l, e)
  {
    match e
    case Begin(at) => l.(place := Polling(at), clock := at, woken := false)
    case End(outcome, requestedAt, tagged, at) =>
      l.(place := Polled(requestedAt, tagged), schedule := TrackingSchedule.Next(p, l.schedule, outcome), clock := at,
         requests := l.requests + [requestedAt])
    case Plan(at) =>
      l.(place := Waiting(NextRequestAt(at, Some(l.place.requestedAt), Interval(l.schedule), l.schedule.session, l.place.tagged)),
         clock := at, intervals := l.intervals + [Interval(l.schedule)])
    case Control(session) =>
      var (s, woken) := TakenOver(p, l.schedule, session);
      l.(schedule := s, woken := l.woken || woken)
  }

  /** The clock of the loop is the time of its last step, its schedule follows outcomes and sessions, and a wake-up is taken once. */
  lemma StepsExactly(p: Policy, l: Loop, e: Step)
    requires Enabled(l, e)
    ensures var t := Next(p, l, e);
            && (if e.Control? then t.clock == l.clock && t.place == l.place else t.clock == e.at)
            && (e.Begin? ==> t.place == Polling(e.at) && !t.woken && t.schedule == l.schedule)
            && (e.End? ==> t.place == Polled(e.requestedAt, e.tagged) && t.woken == l.woken && t.schedule == TrackingSchedule.Next(p, l.schedule, e.outcome))
            && (e.Plan? ==> t.place.Waiting? && t.woken == l.woken && t.schedule == l.schedule)
            && (e.Control? ==> t.schedule.session == e.session && t.schedule.motion == l.schedule.motion && (l.woken ==> t.woken))
            && (e.Control? && !t.woken ==> t.schedule.seconds == l.schedule.seconds)
  {
  }

  /** A session taking over wakes the loop, wherever it is. */
  predicate Wakes(p: Policy, l: Loop, e: Step) {
    e.Control? && TakenOver(p, l.schedule, e.session).1
  }

  /** A run that nothing wakes. */
  predicate UndisturbedRun(p: Policy, l: Loop, steps: seq<Step>, t: Loop)
    decreases |steps|
  {
    if steps == [] then l == t else
      Enabled(l, steps[0]) && !Wakes(p, l, steps[0]) && UndisturbedRun(p, Next(p, l, steps[0]), steps[1..], t)
  }

  function Fresh(p: Policy, session: bool, now: int): Loop {
    Loop(Waiting(now), Started(p, session), now, false, [], [])
  }

  /** Each request comes no sooner than the interval scheduled after the one before it, and no interval is below the minimum. */
  predicate Spaced(requests: seq<int>, intervals: seq<int>, minimum: int) {
    && |requests| - 1 <= |intervals| <= |requests|
    && (forall i | 0 <= i < |intervals| :: minimum <= intervals[i])
    && (forall i | 0 <= i < |requests| - 1 :: requests[i] + intervals[i] <= requests[i + 1])
  }

  /** The earliest time at which the loop may still send its next request. */
  predicate Holds(p: Policy, l: Loop) {
    && Ordered(p) && KeepsMinimum(p) && AboveMinimum(p, l.schedule)
    && !l.woken && Spaced(l.requests, l.intervals, p.minimum)
    && match l.place
       case Waiting(due) =>
         |l.intervals| == |l.requests| && (l.requests != [] ==> Last(l.requests) + Last(l.intervals) <= due)
       case Polling(startedAt) =>
         |l.intervals| == |l.requests| && (l.requests != [] ==> Last(l.requests) + Last(l.intervals) <= startedAt)
       case Polled(requestedAt, _) =>
         |l.intervals| + 1 == |l.requests| && Last(l.requests) == requestedAt <= l.clock
  }

  function Last(s: seq<int>): int
    requires s != []
  {
    s[|s| - 1]
  }

  lemma StepHolds(p: Policy, l: Loop, e: Step)
    requires Holds(p, l) && Enabled(l, e) && !Wakes(p, l, e)
    ensures Holds(p, Next(p, l, e))
  {
    hide Ordered, KeepsMinimum, AboveMinimum, TrackingSchedule.Next, TakenOver;
    match e
    case Begin(_) =>
    case End(outcome, _, _, _) => StepKeepsMinimum(p, l.schedule, outcome);
    case Plan(_) => IntervalIsKept(p, l.schedule);
    case Control(session) =>
      StepKeepsMinimum(p, l.schedule, TakeOver(session));
      TakeOverIs(p, l.schedule, session);
  }

  lemma TakeOverIs(p: Policy, s: Schedule, session: bool)
    ensures TrackingSchedule.Next(p, s, TakeOver(session)) == TakenOver(p, s, session).0
  {
  }

  lemma IntervalIsKept(p: Policy, s: Schedule)
    requires AboveMinimum(p, s)
    ensures p.minimum <= Interval(s)
  {
  }

  lemma {:induction false} RunHolds(p: Policy, l: Loop, steps: seq<Step>, t: Loop)
    requires Holds(p, l) && UndisturbedRun(p, l, steps, t)
    ensures Holds(p, t)
    decreases |steps|
  {
    hide Holds, Enabled, Wakes, Next;
    if steps != [] {
      StepHolds(p, l, steps[0]);
      RunHolds(p, Next(p, l, steps[0]), steps[1..], t);
    }
  }

  lemma {:induction false} SpanOf(requests: seq<int>, intervals: seq<int>, minimum: int)
    requires Spaced(requests, intervals, minimum) && requests != []
    ensures Last(requests) - requests[0] >= (|requests| - 1) * minimum
    decreases |requests|
  {
    var n := |requests| - 1;
    if n > 0 {
      SpanOf(requests[..n], intervals[..n], minimum);
      assert Last(requests[..n]) == requests[n - 1];
      assert (n - 1) * minimum + minimum == n * minimum;
    }
  }

  /**
   Under every policy that keeps its minimum, and so under every normalised whole-second one, the requests of a run
   that nothing wakes are at least the scheduled intervals apart, and k of them span k - 1 minimum intervals.
   */
  lemma RequestsAreSpaced(p: Policy, session: bool, now: int, steps: seq<Step>, t: Loop)
    requires UndisturbedRun(Normalised(p), Fresh(Normalised(p), session, now), steps, t)
    requires KeepsMinimum(Normalised(p))
    ensures var n := Normalised(p);
            && Spaced(t.requests, t.intervals, n.minimum)
            && (t.requests != [] ==> Last(t.requests) - t.requests[0] >= (|t.requests| - 1) * n.minimum)
  {
    var n := Normalised(p);
    NormalisedKeepsMinimum(p);
    StartsAboveMinimum(n, session);
    hide Ordered, KeepsMinimum, AboveMinimum, Normalised, UndisturbedRun;
    RunHolds(n, Fresh(n, session, now), steps, t);
    if t.requests != [] {
      SpanOf(t.requests, t.intervals, n.minimum);
    }
  }

  // Runs that are woken

  predicate IsRun(p: Policy, l: Loop, steps: seq<Step>, t: Loop)
    decreases |steps|
  {
    if steps == [] then l == t else Enabled(l, steps[0]) && IsRun(p, Next(p, l, steps[0]), steps[1..], t)
  }

  /** How often a run is woken. */
  function WakeUps(p: Policy, l: Loop, steps: seq<Step>): nat
    decreases |steps|
  {
    if steps == [] || !Enabled(l, steps[0]) then 0 else
      (if Wakes(p, l, steps[0]) then 1 else 0) + WakeUps(p, Next(p, l, steps[0]), steps[1..])
  }

  function Unused(l: Loop): nat {
    if l.woken then 1 else 0
  }

  function Times(n: int, minimum: int): int {
    n * minimum
  }

  /** After so many polls begun early, how far the requests reach and how far away the next one still is. */
  predicate Reaches(p: Policy, l: Loop, early: nat) {
    && Ordered(p) && KeepsMinimum(p) && AboveMinimum(p, l.schedule)
    && (l.place.Polled? ==> l.requests != [] && l.place.requestedAt == Last(l.requests))
    && (l.requests != [] ==>
          var first, k := l.requests[0], |l.requests|;
          && first <= Last(l.requests) <= l.clock
          && Last(l.requests) - first >= Times(k - 1 - early, p.minimum)
          && match l.place
             case Waiting(due) => due - first >= Times(k - early, p.minimum)
             case Polling(startedAt) => startedAt >= Last(l.requests) && startedAt - first >= Times(k - early, p.minimum)
             case Polled(_, _) => true)
  }

  lemma StepReaches(p: Policy, l: Loop, e: Step, early: nat) returns (early': nat)
    requires Reaches(p, l, early) && Enabled(l, e)
    ensures Reaches(p, Next(p, l, e), early')
    ensures early' + Unused(Next(p, l, e)) <= early + Unused(l) + if Wakes(p, l, e) then 1 else 0
  {
    Multiples(|l.requests| - early, p.minimum);
    NoneReached(early, p.minimum);
    MinimumIsPositive(p);
    hide Ordered, KeepsMinimum, AboveMinimum, TrackingSchedule.Next, TakenOver, Times;
    early' := early;
    match e
    case Begin(at) =>
      if l.place.due > at {
        early' := early + 1;
      }
    case End(outcome, _, _, _) =>
      StepKeepsMinimum(p, l.schedule, outcome);
    case Plan(at) =>
      IntervalIsKept(p, l.schedule);
    case Control(session) =>
      StepKeepsMinimum(p, l.schedule, TakeOver(session));
      TakeOverIs(p, l.schedule, session);
  }

  lemma Multiples(n: int, minimum: int)
    ensures Times(n - 1, minimum) + minimum == Times(n, minimum)
  {
  }

  lemma NoneReached(early: int, minimum: int)
    requires early >= 0
    ensures minimum > 0 ==> Times(-early, minimum) <= 0
  {
  }

  lemma {:induction false} RunReaches(p: Policy, l: Loop, steps: seq<Step>, t: Loop, early: nat) returns (early': nat)
    requires Reaches(p, l, early) && IsRun(p, l, steps, t)
    ensures Reaches(p, t, early') && early' <= early + Unused(l) + WakeUps(p, l, steps)
    decreases |steps|
  {
    hide Reaches, Enabled, Wakes, Next;
    if steps == [] {
      early' := early;
    } else {
      var middle := StepReaches(p, l, steps[0], early);
      early' := RunReaches(p, Next(p, l, steps[0]), steps[1..], t, middle);
    }
  }

  lemma FewerMultiples(a: int, b: int, minimum: int)
    requires a <= b && minimum >= 0
    ensures a * minimum <= Times(b, minimum)
  {
    assert b * minimum == a * minimum + (b - a) * minimum;
  }

  lemma FreshReaches(p: Policy, session: bool, now: int)
    requires Ordered(p) && KeepsMinimum(p)
    ensures Reaches(p, Fresh(p, session, now), 0)
  {
    StartsAboveMinimum(p, session);
    hide Ordered, KeepsMinimum, AboveMinimum;
  }

  /** Over every run, each wake-up costs at most one minimum interval: woken w times, k requests span k - 1 - w of them. */
  lemma WakeUpsCostOneIntervalEach(p: Policy, session: bool, now: int, steps: seq<Step>, t: Loop)
    requires KeepsMinimum(Normalised(p))
    requires IsRun(Normalised(p), Fresh(Normalised(p), session, now), steps, t) && t.requests != []
    ensures var n := Normalised(p);
            var w := WakeUps(n, Fresh(n, session, now), steps);
            && Last(t.requests) >= t.requests[0]
            && Last(t.requests) - t.requests[0] >= (|t.requests| - 1 - w) * n.minimum
  {
    var n := Normalised(p);
    NormalisedKeepsMinimum(p);
    FreshReaches(n, session, now);
    MinimumIsPositive(n);
    hide Ordered, KeepsMinimum, AboveMinimum, Normalised, IsRun, WakeUps, Enabled;
    var early := RunReaches(n, Fresh(n, session, now), steps, t, 0);
    FewerMultiples(|t.requests| - 1 - WakeUps(n, Fresh(n, session, now), steps), |t.requests| - 1 - early, n.minimum);
  }

  lemma MinimumIsPositive(p: Policy)
    requires Ordered(p)
    ensures p.minimum > 0
  {
  }

  // The cost is real

  function FirstPoll(at: int): seq<Step> {
    [Begin(at), End(Success(Baseline), at, false, at), Plan(at)]
  }

  /** A poll, a session that takes over while the loop waits, and the next request at the same time. */
  function WokenRun(at: int): seq<Step> {
    FirstPoll(at) + [Control(true), Begin(at), End(Success(Baseline), at, false, at)]
  }

  lemma OneMoreStep(p: Policy, l: Loop, e: Step, rest: seq<Step>, t: Loop)
    requires Enabled(l, e) && IsRun(p, Next(p, l, e), rest, t)
    ensures IsRun(p, l, [e] + rest, t)
    ensures WakeUps(p, l, [e] + rest) == (if Wakes(p, l, e) then 1 else 0) + WakeUps(p, Next(p, l, e), rest)
  {
    hide Next, Enabled, Wakes;
    assert ([e] + rest)[1..] == rest;
  }

  /** Woken once, two requests need not be apart at all, whatever the minimum of a normalised policy. */
  lemma WakingBreaksSpacing(p: Policy, at: int) returns (t: Loop)
    ensures var n := Normalised(p);
            && IsRun(n, Fresh(n, false, at), WokenRun(at), t) && WakeUps(n, Fresh(n, false, at), WokenRun(at)) == 1
            && t.requests == [at, at] && 0 < n.minimum
  {
    var n := Normalised(p);
    NormalisedIsOrdered(p);
    var l0 := Fresh(n, false, at);
    var l1 := Next(n, l0, Begin(at));
    var l2 := Next(n, l1, End(Success(Baseline), at, false, at));
    var l3 := Next(n, l2, Plan(at));
    var l4 := Next(n, l3, Control(true));
    var l5 := Next(n, l4, Begin(at));
    t := Next(n, l5, End(Success(Baseline), at, false, at));
    assert Wakes(n, l3, Control(true)) && t.requests == [at, at];
    hide Next, Normalised, Fresh;
    var last := End(Success(Baseline), at, false, at);
    assert IsRun(n, t, [], t);
    OneMoreStep(n, l5, last, [], t);
    OneMoreStep(n, l4, Begin(at), [last], t);
    OneMoreStep(n, l3, Control(true), [Begin(at), last], t);
    OneMoreStep(n, l2, Plan(at), [Control(true), Begin(at), last], t);
    OneMoreStep(n, l1, last, [Plan(at), Control(true), Begin(at), last], t);
    OneMoreStep(n, l0, Begin(at), [last, Plan(at), Control(true), Begin(at), last], t);
    Spelled(at);
  }

  lemma Spelled(at: int)
    ensures var last := End(Success(Baseline), at, false, at);
            WokenRun(at) == [Begin(at)] + [last, Plan(at), Control(true), Begin(at), last]
  {
  }
}

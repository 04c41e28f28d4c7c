/** The recovery events in the history of polls. */
module TrackingHistory {
  import opened RouteRecovery
  import opened Tracking

  /** What a tracking run sees: a poll and how it ends, or a notice; a notice may also arrive while a reset is awaited. */
  datatype Happening =
    | Answered(route: RouteEvidence)
    | Unstaged(route: RouteEvidence)
    | Unanswered(timeout: bool, canReset: bool, cancelled: bool, route: RouteEvidence, noticed: bool, accepted: bool)
    | Noticed

  /** The recovery state when the poll is recorded. */
  function AtRecord(r: Recovery, h: Happening): Recovery {
    match h
    case Unanswered(timeout, canReset, cancelled, route, noticed, accepted) =>
      var a := TimedOut(r, timeout, canReset, cancelled, route);
      if a.requested then ResetAnswered(if noticed then PathUpdated(a) else a, accepted) else a
    case _ => r
  }

  function After(r: Recovery, h: Happening): Recovery {
    match h
    case Answered(route) => Succeeded(r, route)
    case Noticed => PathUpdated(r)
    case _ => Recorded(AtRecord(r, h))
  }

  /** The label of the history entry, if the happening makes one. */
  function Entry(r: Recovery, h: Happening): seq<Label> {
    if h.Noticed? then [] else [LabelFor(AtRecord(r, h), h.route)]
  }

  /** The recovery events that take place: a route found to have changed, a reset answered one way or the other. */
  function Events(r: Recovery, h: Happening): seq<Trace> {
    if !h.Unanswered? then [] else
      var rearmed := h.timeout && h.canReset && Candidate(h.route) && r.episode && r.acknowledged && RouteChanged(r, h.route);
      var requested := TimedOut(r, h.timeout, h.canReset, h.cancelled, h.route).resets > r.resets;
      (if rearmed then [NewRoute] else []) + if !requested then [] else if h.accepted then [ResetAcknowledged] else [ResetFailed]
  }

  function DueOf(entry: Label): seq<Trace> {
    if entry.Due? then [entry.trace] else []
  }

  function DueIn(labels: seq<Label>): seq<Trace> {
    if labels == [] then [] else DueOf(labels[0]) + DueIn(labels[1..])
  }

  function History(r: Recovery, hs: seq<Happening>): seq<Label>
    decreases |hs|
  {
    if hs == [] then [] else Entry(r, hs[0]) + History(After(r, hs[0]), hs[1..])
  }

  function AllEvents(r: Recovery, hs: seq<Happening>): seq<Trace>
    decreases |hs|
  {
    if hs == [] then [] else Events(r, hs[0]) + AllEvents(After(r, hs[0]), hs[1..])
  }

  predicate Between(r: Recovery) {
    r.trace.NoTrace? && !r.requested
  }

  /** A poll has at most one event, its own entry names it, and none is left over for a later one. */
  lemma OneEventPerPoll(r: Recovery, h: Happening)
    requires Between(r)
    ensures DueIn(Entry(r, h)) == Events(r, h) && |Events(r, h)| <= 1 && Between(After(r, h))
  {
  }

  lemma Associates(a: seq<Trace>, b: seq<Trace>, c: seq<Trace>)
    ensures a + b + c == a + (b + c)
  {
  }

  lemma {:induction false} DueInJoin(a: seq<Label>, b: seq<Label>)
    ensures DueIn(a + b) == DueIn(a) + DueIn(b)
  {
    if a == [] {
      assert a + b == b;
    } else {
      hide DueOf;
      assert (a + b)[1..] == a[1..] + b && (a + b)[0] == a[0];
      DueInJoin(a[1..], b);
      Associates(DueOf(a[0]), DueIn(a[1..]), DueIn(b));
    }
  }

  /** Over a run, the events the history names are exactly those that took place, each once and in their order. */
  lemma {:induction false} HistoryNamesEveryEventOnce(r: Recovery, hs: seq<Happening>)
    requires Between(r)
    ensures DueIn(History(r, hs)) == AllEvents(r, hs)
    decreases |hs|
  {
    hide After, Entry, Events, Between;
    if hs != [] {
      OneEventPerPoll(r, hs[0]);
      HistoryNamesEveryEventOnce(After(r, hs[0]), hs[1..]);
      DueInJoin(Entry(r, hs[0]), History(After(r, hs[0]), hs[1..]));
    }
  }

  /** Without an event, an entry names the route taken exactly while an episode is open and the route is known. */
  lemma RouteIsNamedInEpisodes(r: Recovery, h: Happening, mode: RouteMode)
    requires Between(r) && !h.Noticed? && Events(r, h) == []
    ensures Entry(r, h) == [Observed(mode)] <==> AtRecord(r, h).episode && h.route.mode == mode && !mode.UnknownRoute?
  {
    OneEventPerPoll(r, h);
  }
}

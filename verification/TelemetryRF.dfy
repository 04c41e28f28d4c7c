/** Which raw radio frame, if any, is taken to have carried a tagged telemetry response. */
module TelemetryRF {
  import opened Common

  const DEFAULT_WINDOW: nat := 250_000_000
  const MAX_RECENT: nat := 32
  const PUSH_LOG_RX: byte := 0x88

  datatype Candidate = Candidate(observedAt: int, sequence: nat, rssi: int, snr: real, sha256: string)

  datatype Outcome = NoCandidate | OutsideWindow | BeforeRequestStart | AlreadyConsumed | Matched

  datatype Confidence = Unrated | High | Medium | Low

  /** The selected candidate is named whenever one is in the window; signal values are set only when it is matched. */
  datatype Evidence = Evidence(
    outcome: Outcome,
    candidateCount: nat,
    selected: Option<Candidate>,
    nearest: Option<Candidate>,
    confidence: Confidence,
    rssi: Option<int>,
    snr: Option<real>)

  /** The request side of an association; a request that was never written has no start. */
  datatype Asked = Asked(requestedAt: Option<int>, frameSequence: nat)

  function Signed(b: byte): int {
    if b < 128 then b else b - 256
  }

  predicate Recordable(frame: seq<byte>, sequence: nat) {
    |frame| >= 3 && frame[0] == PUSH_LOG_RX && sequence != 0
  }

  function CandidateOf(frame: seq<byte>, observedAt: int, sequence: nat, sha256: string): Candidate
    requires Recordable(frame, sequence)
  {
    Candidate(observedAt, sequence, Signed(frame[2]), Signed(frame[1]) as real / 4.0, sha256)
  }

  /** The third byte is the signal strength and the second the signal-to-noise ratio in quarters, both signed. */
  lemma CandidateValues(frame: seq<byte>, observedAt: int, sequence: nat, sha256: string)
    ensures Recordable(frame, sequence) <==> |frame| >= 3 && frame[0] == 0x88 && sequence >= 1
    ensures Recordable(frame, sequence) ==>
              var c := CandidateOf(frame, observedAt, sequence, sha256);
              && -128 <= c.rssi < 128 && (c.rssi == frame[2] || c.rssi + 256 == frame[2])
              && (c.snr * 4.0 == frame[1] as real || c.snr * 4.0 + 256.0 == frame[1] as real) && -32.0 <= c.snr < 32.0
              && c.observedAt == observedAt && c.sequence == sequence && c.sha256 == sha256
  {
  }

  function Latest(all: seq<Candidate>): seq<Candidate> {
    if |all| > MAX_RECENT then all[|all| - MAX_RECENT..] else all
  }

  function Window(configured: int): int {
    if configured > 0 then configured else DEFAULT_WINDOW
  }

  /** The window is the last thirty-two recorded frames, and the time allowed a quarter of a second unless another is configured. */
  lemma WindowsExactly(all: seq<Candidate>, configured: int)
    ensures var w := Latest(all);
            && |w| == (if |all| < 32 then |all| else 32) && w == all[|all| - |w|..]
            && Window(configured) == (if configured <= 0 then SECOND / 4 else configured)
  {
  }

  // Eligibility

  predicate Precedes(c: Candidate, at: int, sequence: nat) {
    c.sequence < sequence && c.observedAt <= at
  }

  predicate Between(c: Candidate, start: int, startSequence: nat, at: int, sequence: nat) {
    Precedes(c, at, sequence) && startSequence < c.sequence && start <= c.observedAt
  }

  predicate Eligible(c: Candidate, start: int, startSequence: nat, at: int, sequence: nat, window: int) {
    Between(c, start, startSequence, at, sequence) && at - c.observedAt <= window
  }

  /** The candidates between the boundaries, in the order they were recorded. */
  function AllBetween(cs: seq<Candidate>, start: int, startSequence: nat, at: int, sequence: nat): seq<Candidate> {
    if cs == [] then [] else
      var c := cs[|cs| - 1];
      AllBetween(cs[..|cs| - 1], start, startSequence, at, sequence) + if Between(c, start, startSequence, at, sequence) then [c] else []
  }

  function AllEligible(cs: seq<Candidate>, start: int, startSequence: nat, at: int, sequence: nat, window: int): seq<Candidate> {
    if cs == [] then [] else
      var c := cs[|cs| - 1];
      AllEligible(cs[..|cs| - 1], start, startSequence, at, sequence, window)
      + if Eligible(c, start, startSequence, at, sequence, window) then [c] else []
  }

  lemma {:induction false} BetweenMembers(cs: seq<Candidate>, start: int, startSequence: nat, at: int, sequence: nat)
    ensures forall c :: c in AllBetween(cs, start, startSequence, at, sequence) <==> c in cs && Between(c, start, startSequence, at, sequence)
  {
    if cs != [] {
      BetweenMembers(cs[..|cs| - 1], start, startSequence, at, sequence);
      assert cs == cs[..|cs| - 1] + [cs[|cs| - 1]];
    }
  }

  lemma {:induction false} EligibleMembers(cs: seq<Candidate>, start: int, startSequence: nat, at: int, sequence: nat, window: int)
    ensures forall c :: c in AllEligible(cs, start, startSequence, at, sequence, window) <==> c in cs && Eligible(c, start, startSequence, at, sequence, window)
  {
    if cs != [] {
      EligibleMembers(cs[..|cs| - 1], start, startSequence, at, sequence, window);
      assert cs == cs[..|cs| - 1] + [cs[|cs| - 1]];
    }
  }

  predicate Increasing(cs: seq<Candidate>) {
    forall i, j | 0 <= i < j < |cs| :: cs[i].sequence < cs[j].sequence
  }

  /** The candidate with the highest sequence. */
  predicate Nearest(c: Candidate, cs: seq<Candidate>) {
    c in cs && forall d | d in cs :: d.sequence <= c.sequence
  }

  function Rated(delta: nat): Confidence {
    if delta == 1 then High else if delta == 2 then Medium else Low
  }

  // Association, said outright

  /** A candidate in the window was selected: the highest in sequence, and usable once. */
  predicate Selects(e: Evidence, recent: seq<Candidate>, consumed: set<nat>, window: int, start: int, startSequence: nat, at: int, sequence: nat) {
    && e.selected.Some? && e.nearest == e.selected
    && var c := e.selected.value;
    && c in recent && Eligible(c, start, startSequence, at, sequence, window)
    && (forall d | d in recent && Eligible(d, start, startSequence, at, sequence, window) :: d.sequence <= c.sequence)
    && if c.sequence in consumed
       then e.outcome.AlreadyConsumed? && e.confidence.Unrated? && e.rssi.None? && e.snr.None?
       else e.outcome.Matched? && e.confidence == Rated(sequence - c.sequence) && e.rssi == Some(c.rssi) && e.snr == Some(c.snr)
  }

  /** What an association must be, given the recorded frames and those already used. */
  predicate Associates(e: Evidence, recent: seq<Candidate>, consumed: set<nat>, window: int, asked: Asked, at: int, sequence: nat) {
    if asked.requestedAt.None? || sequence == 0 then e == Evidence(NoCandidate, 0, None, None, Unrated, None, None) else
      var start := asked.requestedAt.value;
      var between := AllBetween(recent, start, asked.frameSequence, at, sequence);
      && e.candidateCount == |between|
      && if exists c | c in recent :: Eligible(c, start, asked.frameSequence, at, sequence, window) then
           Selects(e, recent, consumed, window, start, asked.frameSequence, at, sequence)
         else
           && e.selected.None? && e.confidence.Unrated? && e.rssi.None? && e.snr.None?
           && if between != [] then e.outcome.OutsideWindow? && e.nearest.Some? && Nearest(e.nearest.value, between)
              else e.nearest.None? && e.outcome == if exists c | c in recent :: Precedes(c, at, sequence) then BeforeRequestStart else NoCandidate
  }

  predicate Heard(c: Candidate, start: int, startSequence: nat, at: int, sequence: nat) {
    startSequence < c.sequence < sequence && start <= c.observedAt <= at
  }

  /**
   Which outcome an association has: a frame is selected exactly when one was recorded after the request, before the response
   and within the window, and no frame recorded in that order is later; the other outcomes say what there was instead.
   */
  lemma OutcomesExactly(e: Evidence, recent: seq<Candidate>, consumed: set<nat>, window: int, start: int, startSequence: nat, at: int, sequence: nat)
    requires sequence > 0 && Associates(e, recent, consumed, window, Asked(Some(start), startSequence), at, sequence)
    ensures e.selected.Some? <==> exists c | c in recent :: Heard(c, start, startSequence, at, sequence) && at - c.observedAt <= window
    ensures e.selected.Some? ==>
              var c := e.selected.value;
              && c in recent && Heard(c, start, startSequence, at, sequence) && at - c.observedAt <= window
              && (e.outcome.Matched? <==> c.sequence !in consumed) && (e.outcome.AlreadyConsumed? <==> c.sequence in consumed)
              && (forall d | d in recent && d.sequence > c.sequence :: Heard(d, start, startSequence, at, sequence) ==> at - d.observedAt > window)
    ensures e.candidateCount > 0 <==> exists c | c in recent :: Heard(c, start, startSequence, at, sequence)
    ensures e.outcome.OutsideWindow? <==> e.selected.None? && e.candidateCount > 0
    ensures e.outcome.BeforeRequestStart? <==>
            e.candidateCount == 0 && exists c | c in recent :: c.sequence < sequence && c.observedAt <= at && (c.sequence <= startSequence || c.observedAt < start)
    ensures e.rssi.Some? <==> e.outcome.Matched?
    ensures var delta := if e.selected.Some? then sequence - e.selected.value.sequence else 0;
            && (e.confidence.High? <==> e.outcome.Matched? && delta == 1) && (e.confidence.Medium? <==> e.outcome.Matched? && delta == 2)
            && (e.confidence.Low? <==> e.outcome.Matched? && delta > 2)
  {
    BetweenMembers(recent, start, startSequence, at, sequence);
    var between := AllBetween(recent, start, startSequence, at, sequence);
    assert between != [] ==> between[0] in between;
    hide AllBetween;
    assert (exists c | c in recent :: Eligible(c, start, startSequence, at, sequence, window)) ==> between != [];
  }

  function Used(e: Evidence): set<nat> {
    if e.outcome.Matched? && e.selected.Some? then {e.selected.value.sequence} else {}
  }

  /** Over an increasing window, the description leaves one answer. */
  lemma AssociationIsUnique(e: Evidence, f: Evidence, recent: seq<Candidate>, consumed: set<nat>, window: int, asked: Asked, at: int, sequence: nat)
    requires Increasing(recent)
    requires Associates(e, recent, consumed, window, asked, at, sequence) && Associates(f, recent, consumed, window, asked, at, sequence)
    ensures e == f
  {
    SequenceNames(recent);
    hide AllBetween, Eligible, Increasing, Rated;
    if asked.requestedAt.Some? {
      BetweenMembers(recent, asked.requestedAt.value, asked.frameSequence, at, sequence);
    }
  }

  lemma SequenceNames(cs: seq<Candidate>)
    requires Increasing(cs)
    ensures forall c, d | c in cs && d in cs && c.sequence == d.sequence :: c == d
  {
    forall c, d | c in cs && d in cs && c.sequence == d.sequence ensures c == d {
      var i :| 0 <= i < |cs| && cs[i] == c;
      var j :| 0 <= j < |cs| && cs[j] == d;
      assert !(i < j) && !(j < i);
    }
  }

  lemma LatestMore(all: seq<Candidate>, c: Candidate)
    ensures var longer := Latest(all) + [c];
            Latest(all + [c]) == if |longer| > MAX_RECENT then longer[|longer| - MAX_RECENT..] else longer
  {
  }

  lemma LatestIsShort(all: seq<Candidate>)
    ensures |Latest(all)| <= MAX_RECENT
  {
  }

  lemma SequenceIs(frame: seq<byte>, observedAt: int, sequence: nat, sha256: string)
    requires Recordable(frame, sequence)
    ensures CandidateOf(frame, observedAt, sequence, sha256).sequence == sequence
  {
  }

  lemma IncreasingMore(all: seq<Candidate>, c: Candidate)
    requires Increasing(all) && forall d | d in all :: d.sequence < c.sequence
    ensures Increasing(all + [c])
  {
  }

  lemma LatestIncreasing(all: seq<Candidate>)
    requires Increasing(all)
    ensures Increasing(Latest(all))
  {
  }

  // Whole sessions

  /** A session and, in order, the sequence numbers whose signal values were handed out. */
  datatype Session = Session(frameSequence: nat, recorded: seq<Candidate>, consumed: set<nat>, given: seq<nat>)

  const NEW_SESSION := Session(0, [], {}, [])

  /** A frame read from the Companion: a raw radio frame, a tagged response with the evidence found for it, or another. */
  datatype Read = Raw(frame: seq<byte>, at: int, sha256: string) | Tagged(asked: Asked, at: int, evidence: Evidence) | Unrelated

  predicate Follows(s: Session, r: Read, window: int) {
    r.Tagged? ==> Associates(r.evidence, Latest(s.recorded), s.consumed, window, r.asked, r.at, s.frameSequence + 1)
  }

  function After(s: Session, r: Read): Session {
    var t := s.(frameSequence := s.frameSequence + 1);
    match r
    case Raw(frame, at, sha256) =>
      if Recordable(frame, t.frameSequence) then t.(recorded := t.recorded + [CandidateOf(frame, at, t.frameSequence, sha256)]) else t
    case Tagged(_, _, e) =>
      if e.outcome.Matched? && e.selected.Some?
      then t.(consumed := t.consumed + Used(e), given := t.given + [e.selected.value.sequence]) else t
    case Unrelated => t
  }

  ghost predicate SessionInv(s: Session) {
    && Increasing(s.recorded) && (forall c | c in s.recorded :: c.sequence <= s.frameSequence)
    && (forall n: nat :: n in s.consumed <==> n in s.given)
    && (forall i, j | 0 <= i < j < |s.given| :: s.given[i] != s.given[j])
  }

  predicate IsSession(s: Session, frames: seq<Read>, window: int, t: Session)
    decreases |frames|
  {
    if frames == [] then s == t else Follows(s, frames[0], window) && IsSession(After(s, frames[0]), frames[1..], window, t)
  }

  lemma ReadKeeps(s: Session, r: Read, window: int)
    requires SessionInv(s) && Follows(s, r, window)
    ensures SessionInv(After(s, r))
  {
    hide AllBetween, Eligible, CandidateOf;
    match r
    case Raw(frame, at, sha256) =>
      if Recordable(frame, s.frameSequence + 1) {
        SequenceIs(frame, at, s.frameSequence + 1, sha256);
        IncreasingMore(s.recorded, CandidateOf(frame, at, s.frameSequence + 1, sha256));
      }
    case Tagged(_, _, e) =>
      if e.outcome.Matched? && e.selected.Some? {
        assert e.selected.value.sequence !in s.given;
      }
    case Unrelated =>
  }

  /** No raw frame gives its signal values to two responses of a session, and the window stays increasing and short. */
  lemma {:induction false} NoFrameGivenTwice(s: Session, frames: seq<Read>, window: int, t: Session)
    requires SessionInv(s) && IsSession(s, frames, window, t)
    ensures forall i, j | 0 <= i < j < |t.given| :: t.given[i] != t.given[j]
    ensures Increasing(Latest(t.recorded)) && |Latest(t.recorded)| <= MAX_RECENT
    decreases |frames|
  {
    hide Follows, After;
    if frames == [] {
      LatestIncreasing(s.recorded);
    } else {
      ReadKeeps(s, frames[0], window);
      NoFrameGivenTwice(After(s, frames[0]), frames[1..], window, t);
    }
  }

  class Correlator {
    const configuredWindow: int
    var frameSequence: nat
    var recent: seq<Candidate>
    var consumed: set<nat>

    ghost var recorded: seq<Candidate>

    /** The window holds the latest recorded frames, in strictly increasing order. */
    ghost predicate Valid()
      reads this
    {
      && Increasing(recorded) && (forall c | c in recorded :: 1 <= c.sequence <= frameSequence)
      && recent == Latest(recorded)
    }

    constructor (configuredWindow: int)
      ensures Valid() && recent == [] && consumed == {} && this.configuredWindow == configuredWindow
    {
      this.configuredWindow := configuredWindow;
      frameSequence, recent, consumed, recorded := 0, [], {}, [];
    }

    method StartSession()
      modifies this
      ensures Valid() && recent == [] && consumed == {} && frameSequence == 0
    {
      frameSequence, recent, consumed, recorded := 0, [], {}, [];
    }

    method NextFrame()
      requires Valid()
      modifies this`frameSequence
      ensures Valid() && frameSequence == old(frameSequence) + 1
      ensures forall c | c in recorded :: c.sequence < frameSequence
    {
      frameSequence := frameSequence + 1;
    }

    /** Records the frame just read. */
    method Record(frame: seq<byte>, observedAt: int, sha256: string)
      requires Valid() && forall c | c in recorded :: c.sequence < frameSequence
      modifies this`recent, this`recorded
      ensures Valid() && |recent| <= MAX_RECENT
      ensures recorded == if Recordable(frame, frameSequence)
                          then old(recorded) + [CandidateOf(frame, observedAt, frameSequence, sha256)] else old(recorded)
    {
      hide Latest, Increasing, CandidateOf;
      LatestIsShort(recorded);
      if |frame| < 3 || frame[0] != PUSH_LOG_RX || frameSequence == 0 {
        return;
      }
      var c := CandidateOf(frame, observedAt, frameSequence, sha256);
      SequenceIs(frame, observedAt, frameSequence, sha256);
      LatestMore(recorded, c);
      LatestIsShort(recorded + [c]);
      IncreasingMore(recorded, c);
      recorded := recorded + [c];
      recent := recent + [c];
      if |recent| > MAX_RECENT {
        recent := recent[|recent| - MAX_RECENT..];
      }
    }

    static method NearestOf(cs: seq<Candidate>) returns (nearest: Candidate)
      requires cs != []
      ensures Nearest(nearest, cs)
    {
      nearest := cs[0];
      for i := 1 to |cs|
        invariant Nearest(nearest, cs[..i])
      {
        if cs[i].sequence > nearest.sequence {
          nearest := cs[i];
        }
        assert cs[..i + 1] == cs[..i] + [cs[i]];
      }
      assert cs[..|cs|] == cs;
    }

    /** One pass over the window. */
    method Sift(start: int, startSequence: nat, at: int, sequence: nat) returns (candidates: seq<Candidate>, eligible: seq<Candidate>, before: bool)
      ensures candidates == AllBetween(recent, start, startSequence, at, sequence)
      ensures eligible == AllEligible(recent, start, startSequence, at, sequence, Window(configuredWindow))
      ensures before <==> exists c | c in recent :: Precedes(c, at, sequence) && !Between(c, start, startSequence, at, sequence)
    {
      hide Window;
      var window := Window(configuredWindow);
      candidates, eligible, before := [], [], false;
      for i := 0 to |recent|
        invariant candidates == AllBetween(recent[..i], start, startSequence, at, sequence)
        invariant eligible == AllEligible(recent[..i], start, startSequence, at, sequence, window)
        invariant before <==> exists c | c in recent[..i] :: Precedes(c, at, sequence) && !Between(c, start, startSequence, at, sequence)
      {
        var c := recent[i];
        assert recent[..i + 1][..i] == recent[..i] && recent[..i + 1] == recent[..i] + [c];
        if c.sequence >= sequence || c.observedAt > at {
        } else if c.sequence <= startSequence || c.observedAt < start {
          before := true;
        } else {
          candidates := candidates + [c];
          if at - c.observedAt <= window {
            eligible := eligible + [c];
          }
        }
      }
      assert recent[..|recent|] == recent;
    }

    method Correlate(asked: Asked, at: int, sequence: nat) returns (e: Evidence)
      modifies this`consumed
      ensures Associates(e, recent, old(consumed), Window(configuredWindow), asked, at, sequence)
      ensures consumed == old(consumed) + Used(e)
    {
      hide AllBetween, AllEligible, Window, Rated, Eligible, Precedes;
      if asked.requestedAt.None? || sequence == 0 {
        return Evidence(NoCandidate, 0, None, None, Unrated, None, None);
      }
      var start, first := asked.requestedAt.value, asked.frameSequence;
      var candidates, eligible, before := Sift(start, first, at, sequence);
      BetweenMembers(recent, start, first, at, sequence);
      EligibleMembers(recent, start, first, at, sequence, Window(configuredWindow));
      BetweenPrecedes(start, first, at, sequence, Window(configuredWindow));
      if eligible == [] {
        assert forall c | c in recent :: c !in eligible;
        if candidates != [] {
          var nearest := NearestOf(candidates);
          return Evidence(OutsideWindow, |candidates|, None, Some(nearest), Unrated, None, None);
        }
        assert forall c | c in recent :: c !in candidates;
        return Evidence(if before then BeforeRequestStart else NoCandidate, 0, None, None, Unrated, None, None);
      }
      var c := NearestOf(eligible);
      if c.sequence in consumed {
        return Evidence(AlreadyConsumed, |candidates|, Some(c), Some(c), Unrated, None, None);
      }
      consumed := consumed + {c.sequence};
      e := Evidence(Matched, |candidates|, Some(c), Some(c), Rated(sequence - c.sequence), Some(c.rssi), Some(c.snr));
    }

    static lemma BetweenPrecedes(start: int, startSequence: nat, at: int, sequence: nat, window: int)
      ensures forall c :: Between(c, start, startSequence, at, sequence) ==> Precedes(c, at, sequence) && c.sequence < sequence
      ensures forall c :: Eligible(c, start, startSequence, at, sequence, window) ==> Between(c, start, startSequence, at, sequence)
    {
    }
  }
}

/** The resynchronising scanner that cuts a native serial stream into frames. */
module FrameScanner {
  import opened Common

  const START1: byte := 0x94
  const START2: byte := 0xC3
  const MAX_PAYLOAD: nat := 4096
  const MAX_DISCARDED: nat := 262144

  /** How reading past the last byte ends. */
  datatype Ending = AtEof | ReadFault

  /** The bytes still to be read, the discard counter and the number of frames seen. */
  datatype Scanner = Scanner(input: seq<byte>, ending: Ending, discarded: nat, seenFrames: nat)

  datatype Limits = Limits(maxPayload: nat, maxDiscarded: nat)

  datatype Result = Frame(payload: seq<byte>, dropped: nat) | NoFrames(dropped: nat) | Ended(dropped: nat)

  function LengthOf(msb: byte, lsb: byte): nat {
    (msb as int) * 256 + lsb as int
  }

  function BuildFrame(payload: seq<byte>): seq<byte>
    requires |payload| < 65536
  {
    [START1, START2, |payload| / 256, |payload| % 256] + payload
  }

  function Discarding(s: Scanner, n: nat, used: nat): Scanner
    requires used <= |s.input|
  {
    s.(input := s.input[used..], discarded := s.discarded + n)
  }

  function Exhausted(s: Scanner): Scanner {
    s.(input := [])
  }

  function AtEnd(s: Scanner, dropped: nat): Result {
    if s.ending.AtEof? && s.seenFrames == 0 && s.discarded + dropped > 0 then NoFrames(dropped) else Ended(dropped)
  }

  /** A header has been read up to its second start byte; the rest of the input is its length, payload and what follows. */
  function Scan(l: Limits, s: Scanner, dropped: nat, half: bool): (Scanner, Result)
    decreases |s.input|
  {
    if s.input == [] then (s, AtEnd(s, dropped))
    else if !half && s.input[0] == START1 then Scan(l, Discarding(s, 0, 1), dropped, true)
    else if !half || s.input[0] != START2 then
      var t := Discarding(s, 1, 1);
      if t.discarded > l.maxDiscarded then (t, NoFrames(dropped + 1)) else Scan(l, t, dropped + 1, half && s.input[0] == START1)
    else if |s.input| < 3 then (Exhausted(s), Ended(dropped))
    else
      var length := LengthOf(s.input[1], s.input[2]);
      if length == 0 || length > l.maxPayload then
        var t := Discarding(s, 4, 3);
        if t.discarded > l.maxDiscarded then (t, NoFrames(dropped + 4)) else Scan(l, t, dropped + 4, false)
      else if |s.input| - 3 < length then (Exhausted(s), Ended(dropped))
      else (s.(input := s.input[3 + length..], discarded := 0, seenFrames := s.seenFrames + 1), Frame(s.input[3..3 + length], dropped))
  }

  // What the scanner finds

  predicate Sendable(l: Limits, payload: seq<byte>) {
    0 < |payload| <= l.maxPayload && |payload| < 65536
  }

  predicate Unusable(l: Limits, length: nat) {
    length == 0 || length > l.maxPayload
  }

  /**
   The discard count of bytes that belong to no frame, or nothing when they end inside a header or hold a usable one.
   A first start byte counts only when another one follows it; half says that one has just been read.
   */
  function Waste(l: Limits, g: seq<byte>, half: bool): Option<nat>
    decreases |g|
  {
    if g == [] then Some(if half then 1 else 0)
    else if !half && g[0] == START1 then Waste(l, g[1..], true)
    else if !half || g[0] != START2 then More(1, Waste(l, g[1..], g[0] == START1))
    else if |g| < 3 || !Unusable(l, LengthOf(g[1], g[2])) then None
    else More(4, Waste(l, g[3..], false))
  }

  function More(n: nat, w: Option<nat>): Option<nat> {
    if w.Some? then Some(n + w.value) else None
  }

  lemma {:induction false} WasteBound(l: Limits, g: seq<byte>, half: bool)
    ensures Waste(l, g, half).Some? ==> Waste(l, g, half).value <= |g| + if half then 1 else 0
    decreases |g|
  {
    if g != [] {
      WasteBound(l, g[1..], g[0] == START1);
      if |g| >= 3 {
        WasteBound(l, g[3..], false);
      }
    }
  }

  // The same bytes, described

  /** Noise that is no first start byte, a first start byte that no second one follows, a header of unusable length. */
  datatype Piece = Noise(b: byte) | LoneStart | BadHeader(msb: byte, lsb: byte)

  function Spelled(pieces: seq<Piece>): seq<byte> {
    if pieces == [] then [] else
      (match pieces[0]
       case Noise(b) => [b]
       case LoneStart => [START1]
       case BadHeader(msb, lsb) => [START1, START2, msb, lsb]) + Spelled(pieces[1..])
  }

  predicate Harmless(l: Limits, pieces: seq<Piece>) {
    && (forall i | 0 <= i < |pieces| :: pieces[i].Noise? ==> pieces[i].b != START1)
    && (forall i | 0 <= i < |pieces| :: pieces[i].BadHeader? ==> Unusable(l, LengthOf(pieces[i].msb, pieces[i].lsb)))
    && (forall i | 0 <= i < |pieces| - 1 :: pieces[i].LoneStart? ==> pieces[i + 1] != Noise(START2))
  }

  lemma {:induction false} HarmlessIsWaste(l: Limits, pieces: seq<Piece>, half: bool)
    requires Harmless(l, pieces) && (half && pieces != [] ==> pieces[0] != Noise(START2))
    ensures Waste(l, Spelled(pieces), half).Some?
    decreases |pieces|
  {
    if pieces != [] {
      var g, tail := Spelled(pieces), Spelled(pieces[1..]);
      HarmlessIsWaste(l, pieces[1..], pieces[0].LoneStart?);
      hide LengthOf;
      if pieces[0].BadHeader? {
        var header := g[1..];
        assert header == [START2, pieces[0].msb, pieces[0].lsb] + tail;
        assert header[3..] == tail;
        assert Waste(l, header, true).Some?;
      } else {
        assert g[1..] == tail;
      }
    }
  }

  function Parsed(g: seq<byte>): seq<Piece>
    decreases |g|
  {
    if g == [] then []
    else if g[0] != START1 then [Noise(g[0])] + Parsed(g[1..])
    else if |g| >= 4 && g[1] == START2 then [BadHeader(g[2], g[3])] + Parsed(g[4..])
    else [LoneStart] + Parsed(g[1..])
  }

  /** Whether a first start byte has been read matters only when a second one follows. */
  lemma HalfDoesNotMatter(l: Limits, g: seq<byte>)
    requires g == [] || g[0] != START2
    ensures Waste(l, g, true).Some? <==> Waste(l, g, false).Some?
  {
  }

  lemma {:induction false} WasteIsHarmless(l: Limits, g: seq<byte>)
    requires Waste(l, g, false).Some?
    ensures Harmless(l, Parsed(g)) && Spelled(Parsed(g)) == g
    ensures g != [] && g[0] != START2 ==> Parsed(g)[0] != Noise(START2)
    decreases |g|
  {
    hide LengthOf;
    if g != [] {
      if g[0] == START1 && |g| >= 2 && g[1] == START2 {
        assert g[1..][0] == START2 && Waste(l, g[1..], true).Some?;
        assert g[1..][1] == g[2] && g[1..][2] == g[3] && g[1..][3..] == g[4..];
        WasteIsHarmless(l, g[4..]);
        assert g == [START1, START2, g[2], g[3]] + g[4..];
        HarmlessMore(l, BadHeader(g[2], g[3]), Parsed(g[4..]));
      } else {
        assert g[0] == START1 ==> g[1..] == [] || g[1..][0] == g[1];
        if g[0] == START1 {
          HalfDoesNotMatter(l, g[1..]);
        }
        WasteIsHarmless(l, g[1..]);
        assert g == [g[0]] + g[1..];
        HarmlessMore(l, if g[0] == START1 then LoneStart else Noise(g[0]), Parsed(g[1..]));
      }
    }
  }

  lemma HarmlessMore(l: Limits, p: Piece, pieces: seq<Piece>)
    requires Harmless(l, pieces) && (p.Noise? ==> p.b != START1)
    requires p.BadHeader? ==> Unusable(l, LengthOf(p.msb, p.lsb))
    requires p.LoneStart? && pieces != [] ==> pieces[0] != Noise(START2)
    ensures Harmless(l, [p] + pieces) && ([p] + pieces)[1..] == pieces
  {
  }

  /** The bytes the scanner can get past are exactly noise, lone start bytes and complete headers of unusable length. */
  lemma WasteIsExactlyHarmless(l: Limits, g: seq<byte>)
    ensures Waste(l, g, false).Some? <==> exists pieces :: Harmless(l, pieces) && Spelled(pieces) == g
  {
    if Waste(l, g, false).Some? {
      WasteIsHarmless(l, g);
    }
    forall pieces | Harmless(l, pieces) && Spelled(pieces) == g ensures Waste(l, g, false).Some? {
      HarmlessIsWaste(l, pieces, false);
    }
  }

  // Finding the frame behind them

  /** A frame is two start bytes, its length in two bytes with the high one first, and the payload. */
  lemma FrameShape(payload: seq<byte>)
    requires |payload| < 65536
    ensures var f := BuildFrame(payload);
            |f| == |payload| + 4 && f[0] == 0x94 && f[1] == 0xC3 && 256 * f[2] as int + f[3] as int == |payload| && f[4..] == payload
    ensures MAX_PAYLOAD == 4096 && MAX_DISCARDED == 256 * 1024
  {
  }

  lemma HeaderFound(l: Limits, s: Scanner, payload: seq<byte>, rest: seq<byte>, dropped: nat)
    requires Sendable(l, payload) && s.input == BuildFrame(payload)[1..] + rest
    ensures Scan(l, s, dropped, true) == (s.(input := rest, discarded := 0, seenFrames := s.seenFrames + 1), Frame(payload, dropped))
  {
    assert s.input == [START2, |payload| / 256, |payload| % 256] + payload + rest;
    assert LengthOf(s.input[1], s.input[2]) == |payload|;
    assert s.input[3..3 + |payload|] == payload;
    assert s.input[3 + |payload|..] == rest;
  }

  /** A frame takes at least its header and its payload. */
  lemma {:induction false} FrameNeedsHeader(l: Limits, s: Scanner, dropped: nat, half: bool)
    ensures var (t, r) := Scan(l, s, dropped, half);
            r.Frame? ==> |t.input| + |r.payload| + (if half then 3 else 4) <= |s.input|
    decreases |s.input|
  {
    if s.input != [] {
      if !half && s.input[0] == START1 {
        FrameNeedsHeader(l, Discarding(s, 0, 1), dropped, true);
      } else if !half || s.input[0] != START2 {
        FrameNeedsHeader(l, Discarding(s, 1, 1), dropped + 1, half && s.input[0] == START1);
      } else if |s.input| >= 3 {
        FrameNeedsHeader(l, Discarding(s, 4, 3), dropped + 4, false);
      }
    }
  }

  /** The scan returns this payload and leaves exactly the bytes behind it. */
  predicate Finds(l: Limits, s: Scanner, dropped: nat, half: bool, payload: seq<byte>, rest: seq<byte>) {
    var (t, r) := Scan(l, s, dropped, half);
    r.Frame? && r.payload == payload && t.input == rest
  }

  /** A header that is usable, or takes bytes of the frame for its length, hides the frame. */
  lemma HeaderHides(l: Limits, s: Scanner, g: seq<byte>, payload: seq<byte>, rest: seq<byte>, dropped: nat)
    requires Sendable(l, payload) && g != [] && g[0] == START2
    requires s.input == g + BuildFrame(payload) + rest
    requires |g| < 3 || !Unusable(l, LengthOf(g[1], g[2]))
    ensures !Finds(l, s, dropped, true, payload, rest)
  {
    hide LengthOf;
    assert s.input[0] == START2 && |s.input| == |g| + 4 + |payload| + |rest|;
    if |g| >= 3 {
      assert s.input[1] == g[1] && s.input[2] == g[2];
    }
    if Unusable(l, LengthOf(s.input[1], s.input[2])) {
      ScanBadHeader(l, s, dropped);
      FrameNeedsHeader(l, Discarding(s, 4, 3), dropped + 4, false);
      hide Scan;
    } else {
      ScanFrame(l, s, dropped);
      hide Scan;
    }
  }

  /** The claim about bytes before a frame: found with the exact count within the limit, and otherwise not found. */
  ghost predicate Skips(l: Limits, s: Scanner, g: seq<byte>, payload: seq<byte>, rest: seq<byte>, dropped: nat, half: bool) {
    var w := Waste(l, g, half);
    if w.Some? && s.discarded + w.value <= l.maxDiscarded
    then Scan(l, s, dropped, half) == (s.(input := rest, discarded := 0, seenFrames := s.seenFrames + 1), Frame(payload, dropped + w.value))
    else !Finds(l, s, dropped, half, payload, rest)
  }

  /**
   The frame behind some bytes is returned exactly when they are noise, lone start bytes and complete headers of
   unusable length, and their discard count is within the limit.
   */
  lemma {:induction false} GarbageIsSkipped(l: Limits, s: Scanner, g: seq<byte>, payload: seq<byte>, rest: seq<byte>, dropped: nat, half: bool)
    requires Sendable(l, payload) && s.input == g + BuildFrame(payload) + rest && s.discarded <= l.maxDiscarded
    ensures Skips(l, s, g, payload, rest, dropped, half)
    decreases |g|, 1
  {
    if g == [] {
      NothingToSkip(l, s, payload, rest, dropped, half);
    } else if half && g[0] == START2 {
      SkipHeader(l, s, g, payload, rest, dropped);
    } else {
      SkipOne(l, s, g, payload, rest, dropped, half);
    }
  }

  lemma NothingToSkip(l: Limits, s: Scanner, payload: seq<byte>, rest: seq<byte>, dropped: nat, half: bool)
    requires Sendable(l, payload) && s.input == BuildFrame(payload) + rest && s.discarded <= l.maxDiscarded
    ensures Skips(l, s, [], payload, rest, dropped, half)
  {
    var frame := BuildFrame(payload);
    assert s.input == [START1] + (frame[1..] + rest);
    var t := Discarding(s, if half then 1 else 0, 1);
    assert t.input == frame[1..] + rest;
    if t.discarded <= l.maxDiscarded {
      HeaderFound(l, t, payload, rest, if half then dropped + 1 else dropped);
    }
  }

  lemma {:induction false} SkipOne(l: Limits, s: Scanner, g: seq<byte>, payload: seq<byte>, rest: seq<byte>, dropped: nat, half: bool)
    requires Sendable(l, payload) && g != [] && !(half && g[0] == START2)
    requires s.input == g + BuildFrame(payload) + rest && s.discarded <= l.maxDiscarded
    ensures Skips(l, s, g, payload, rest, dropped, half)
    decreases |g|, 0
  {
    var tail := g[1..];
    assert s.input[0] == g[0];
    assert s.input[1..] == tail + BuildFrame(payload) + rest;
    ScanByte(l, s, dropped, half);
    hide BuildFrame, Scan, LengthOf;
    if !half && g[0] == START1 {
      GarbageIsSkipped(l, Discarding(s, 0, 1), tail, payload, rest, dropped, true);
    } else {
      var t := Discarding(s, 1, 1);
      if t.discarded <= l.maxDiscarded {
        GarbageIsSkipped(l, t, tail, payload, rest, dropped + 1, g[0] == START1);
      }
    }
  }

  lemma {:induction false} SkipHeader(l: Limits, s: Scanner, g: seq<byte>, payload: seq<byte>, rest: seq<byte>, dropped: nat)
    requires Sendable(l, payload) && g != [] && g[0] == START2
    requires s.input == g + BuildFrame(payload) + rest && s.discarded <= l.maxDiscarded
    ensures Skips(l, s, g, payload, rest, dropped, true)
    decreases |g|, 0
  {
    hide LengthOf;
    if |g| < 3 || !Unusable(l, LengthOf(g[1], g[2])) {
      HeaderHides(l, s, g, payload, rest, dropped);
    } else {
      var tail := g[3..];
      assert s.input[0] == g[0] && s.input[1] == g[1] && s.input[2] == g[2];
      assert s.input[3..] == tail + BuildFrame(payload) + rest;
      ScanBadHeader(l, s, dropped);
      hide BuildFrame, Scan;
      var t := Discarding(s, 4, 3);
      if t.discarded <= l.maxDiscarded {
        GarbageIsSkipped(l, t, tail, payload, rest, dropped + 4, false);
      }
    }
  }

  /** Whatever is scanned: what a frame is, when the scan says that there are none, and how the counts move. */
  lemma {:induction false} ResultsExactly(l: Limits, s: Scanner, dropped: nat, half: bool)
    ensures var (t, r) := Scan(l, s, dropped, half);
            && t.ending == s.ending
            && (r.Frame? ==> 0 < |r.payload| <= l.maxPayload && t.discarded == 0 && t.seenFrames == s.seenFrames + 1)
            && (!r.Frame? ==> t.seenFrames == s.seenFrames && t.discarded - s.discarded == r.dropped - dropped)
            && (r.NoFrames? ==> t.discarded > l.maxDiscarded || (t.input == [] && s.ending.AtEof? && s.seenFrames == 0 && t.discarded + r.dropped > 0))
            && (r.Ended? ==> t.input == [])
            && (s.input == [] ==> (r.NoFrames? <==> s.ending.AtEof? && s.seenFrames == 0 && s.discarded + dropped > 0))
    decreases |s.input|
  {
    hide LengthOf;
    if s.input != [] {
      if !half && s.input[0] == START1 {
        ResultsExactly(l, Discarding(s, 0, 1), dropped, true);
      } else if !half || s.input[0] != START2 {
        ResultsExactly(l, Discarding(s, 1, 1), dropped + 1, half && s.input[0] == START1);
      } else if |s.input| >= 3 {
        ResultsExactly(l, Discarding(s, 4, 3), dropped + 4, false);
      }
    }
  }

  // Whole streams

  /** Bytes that belong to no frame, and the frame after them. */
  datatype Item = Item(garbage: seq<byte>, payload: seq<byte>)

  /** The discard count of the bytes before the frame. */
  function Dropped(l: Limits, item: Item): nat {
    var w := Waste(l, item.garbage, false);
    if w.Some? then w.value else 0
  }

  predicate Good(l: Limits, item: Item) {
    Sendable(l, item.payload) && Waste(l, item.garbage, false).Some? && Dropped(l, item) <= l.maxDiscarded
  }

  predicate AllGood(l: Limits, items: seq<Item>)
    ensures AllGood(l, items) ==> forall i | 0 <= i < |items| :: |items[i].payload| < 65536
  {
    forall i | 0 <= i < |items| :: Good(l, items[i])
  }

  function Stream(items: seq<Item>): seq<byte>
    requires forall i | 0 <= i < |items| :: |items[i].payload| < 65536
    decreases |items|
  {
    if items == [] then [] else items[0].garbage + BuildFrame(items[0].payload) + Stream(items[1..])
  }

  /** The results of calling NextFrame so many times. */
  function ScanTimes(l: Limits, s: Scanner, n: nat): (Scanner, seq<Result>)
    decreases n
  {
    if n == 0 then (s, []) else
      var (t, r) := Scan(l, s, 0, false);
      var (u, rs) := ScanTimes(l, t, n - 1);
      (u, [r] + rs)
  }

  function Found(l: Limits, items: seq<Item>): seq<Result> {
    if items == [] then [] else [Frame(items[0].payload, Dropped(l, items[0]))] + Found(l, items[1..])
  }

  /** Every payload comes back in order, whatever lies between the frames, and the bytes after the last are untouched. */
  lemma {:induction false} FramesComeBackInOrder(l: Limits, s: Scanner, items: seq<Item>, rest: seq<byte>)
    requires AllGood(l, items) && s.input == Stream(items) + rest && s.discarded == 0
    ensures ScanTimes(l, s, |items|) == (s.(input := rest, seenFrames := s.seenFrames + |items|), Found(l, items))
    decreases |items|
  {
    hide Scan, BuildFrame, Waste;
    if items == [] {
      assert Stream(items) + rest == rest;
    } else {
      var item := items[0];
      var after := Stream(items[1..]) + rest;
      assert s.input == item.garbage + BuildFrame(item.payload) + after;
      GarbageIsSkipped(l, s, item.garbage, item.payload, after, 0, false);
      FramesComeBackInOrder(l, Scan(l, s, 0, false).0, items[1..], rest);
    }
  }

  lemma {:induction false} PayloadsInOrder(l: Limits, items: seq<Item>)
    ensures |Found(l, items)| == |items|
    ensures forall i | 0 <= i < |items| :: Found(l, items)[i] == Frame(items[i].payload, Dropped(l, items[i]))
  {
    if items != [] {
      PayloadsInOrder(l, items[1..]);
    }
  }

  /** A start pair in front of a frame swallows it: its false header takes the true start bytes for a length. */
  lemma StartPairCanSwallowFrame() returns (g: seq<byte>, payload: seq<byte>)
    ensures |payload| < 65536
    ensures var l := Limits(MAX_PAYLOAD, MAX_DISCARDED);
            var s := Scanner(g + BuildFrame(payload), AtEof, 0, 0);
            |g| == 2 && Sendable(l, payload) && Waste(l, g, false).None? && Scan(l, s, 0, false).1.NoFrames?
  {
    g, payload := [START1, START2], [1];
    var l := Limits(MAX_PAYLOAD, MAX_DISCARDED);
    var s := Scanner(g + BuildFrame(payload), AtEof, 0, 0);
    assert s.input == [START1, START2, START1, START2, 0, 1, 1];
    var a := Discarding(s, 0, 1);
    var b := Discarding(a, 4, 3);
    assert b.input == [0, 1, 1];
    var c := Discarding(b, 1, 1);
    assert c.input == [1, 1];
    var d := Discarding(c, 1, 1);
    assert d.input == [1];
    var e := Discarding(d, 1, 1);
    assert e.input == [];
    assert Scan(l, e, 7, false).1.NoFrames?;
    assert Scan(l, d, 6, false) == Scan(l, e, 7, false);
    assert Scan(l, c, 5, false) == Scan(l, d, 6, false);
    assert Scan(l, b, 4, false) == Scan(l, c, 5, false);
    assert Scan(l, a, 0, true) == Scan(l, b, 4, false);
  }

  // The loop

  /** One byte that is not the second byte of a start pair. */
  lemma ScanByte(l: Limits, s: Scanner, dropped: nat, half: bool)
    requires s.input != [] && !(half && s.input[0] == START2)
    ensures !half && s.input[0] == START1 ==> Scan(l, s, dropped, half) == Scan(l, Discarding(s, 0, 1), dropped, true)
    ensures half || s.input[0] != START1 ==>
              var t := Discarding(s, 1, 1);
              Scan(l, s, dropped, half) ==
                if t.discarded > l.maxDiscarded then (t, NoFrames(dropped + 1)) else Scan(l, t, dropped + 1, s.input[0] == START1)
  {
  }

  /** A start pair whose length says nothing usable. */
  lemma ScanBadHeader(l: Limits, s: Scanner, dropped: nat)
    requires |s.input| >= 3 && s.input[0] == START2
    requires LengthOf(s.input[1], s.input[2]) == 0 || LengthOf(s.input[1], s.input[2]) > l.maxPayload
    ensures var t := Discarding(s, 4, 3);
            Scan(l, s, dropped, true) == if t.discarded > l.maxDiscarded then (t, NoFrames(dropped + 4)) else Scan(l, t, dropped + 4, false)
  {
  }

  /** A start pair whose frame is there, or cut off. */
  lemma ScanFrame(l: Limits, s: Scanner, dropped: nat)
    requires |s.input| >= 1 && s.input[0] == START2
    ensures |s.input| < 3 ==> Scan(l, s, dropped, true) == (Exhausted(s), Ended(dropped))
    ensures |s.input| >= 3 && 0 < LengthOf(s.input[1], s.input[2]) <= l.maxPayload ==>
              var length := LengthOf(s.input[1], s.input[2]);
              Scan(l, s, dropped, true) ==
                if |s.input| - 3 < length then (Exhausted(s), Ended(dropped))
                else (s.(input := s.input[3 + length..], discarded := 0, seenFrames := s.seenFrames + 1),
                      Frame(s.input[3..3 + length], dropped))
  {
  }

  lemma ScanEnd(l: Limits, s: Scanner, dropped: nat, half: bool)
    requires s.input == []
    ensures Scan(l, s, dropped, half) == (s, AtEnd(s, dropped))
  {
  }

  lemma Slices(input: seq<byte>, length: nat)
    requires 3 + length <= |input|
    ensures input[3..][..length] == input[3..3 + length] && input[3..][length..] == input[3 + length..]
  {
  }

  class NativeFrameScanner {
    var maxPayload: int
    var maxDiscarded: int
    var input: seq<byte>
    var ending: Ending
    var discarded: nat
    var seenFrames: nat

    ghost function View(): Scanner
      reads this
    {
      Scanner(input, ending, discarded, seenFrames)
    }

    constructor (input: seq<byte>, ending: Ending, maxPayload: int, maxDiscarded: int)
      ensures View() == Scanner(input, ending, 0, 0) && this.maxPayload == maxPayload && this.maxDiscarded == maxDiscarded
    {
      this.input, this.ending, this.maxPayload, this.maxDiscarded := input, ending, maxPayload, maxDiscarded;
      discarded, seenFrames := 0, 0;
    }

    method ResetDiscarded()
      modifies this`discarded
      ensures View() == old(View()).(discarded := 0)
    {
      discarded := 0;
    }

    /** One byte that does not complete a start pair: a first start byte is held back, any other is dropped. */
    method SkipByte(before: nat, wasHalf: bool) returns (r: Option<Result>, dropped: nat, half: bool)
      requires maxPayload > 0 && maxDiscarded > 0 && input != [] && !(wasHalf && input[0] == START2)
      modifies this`input, this`discarded
      ensures |input| < |old(input)|
      ensures var l := Limits(maxPayload, maxDiscarded);
              Scan(l, old(View()), before, wasHalf) == if r.Some? then (View(), r.value) else Scan(l, View(), dropped, half)
    {
      hide Scan;
      ScanByte(Limits(maxPayload, maxDiscarded), View(), before, wasHalf);
      var value := input[0];
      input := input[1..];
      if !wasHalf && value == START1 {
        return None, before, true;
      }
      dropped := before + 1;
      discarded := discarded + 1;
      half := value == START1;
      r := if discarded > maxDiscarded then Some(NoFrames(dropped)) else None;
    }

    method NextFrame() returns (r: Result)
      modifies this
      ensures maxPayload == (if old(maxPayload) <= 0 then MAX_PAYLOAD else old(maxPayload))
      ensures maxDiscarded == (if old(maxDiscarded) <= 0 then MAX_DISCARDED else old(maxDiscarded))
      ensures (View(), r) == Scan(Limits(maxPayload, maxDiscarded), old(View()), 0, false)
    {
      if maxPayload <= 0 {
        maxPayload := MAX_PAYLOAD;
      }
      if maxDiscarded <= 0 {
        maxDiscarded := MAX_DISCARDED;
      }
      ghost var l := Limits(maxPayload, maxDiscarded);
      ghost var whole := Scan(l, View(), 0, false);
      var dropped, half := 0, false;
      hide Scan;
      while true
        invariant maxPayload > 0 && maxDiscarded > 0 && l == Limits(maxPayload, maxDiscarded)
        invariant Scan(l, View(), dropped, half) == whole
        invariant maxPayload == (if old(maxPayload) <= 0 then MAX_PAYLOAD else old(maxPayload))
        invariant maxDiscarded == (if old(maxDiscarded) <= 0 then MAX_DISCARDED else old(maxDiscarded))
        decreases |input|
      {
        if input == [] {
          ScanEnd(l, View(), dropped, half);
          return if ending == AtEof && seenFrames == 0 && discarded + dropped > 0 then NoFrames(dropped) else Ended(dropped);
        }
        var found;
        if half && input[0] == START2 {
          assert input == [START2] + input[1..];
          input := input[1..];
          found, dropped := ReadBody(dropped);
          half := false;
        } else {
          found, dropped, half := SkipByte(dropped, half);
        }
        if found.Some? {
          return found.value;
        }
      }
    }

    /** What follows a start pair: the frame, the end of the stream, or a length to resynchronise after. */
    method ReadBody(before: nat) returns (r: Option<Result>, dropped: nat)
      requires maxPayload > 0 && maxDiscarded > 0
      modifies this`input, this`discarded, this`seenFrames
      ensures |input| <= |old(input)|
      ensures var l := Limits(maxPayload, maxDiscarded);
              var s := old(View()).(input := [START2] + old(input));
              Scan(l, s, before, true) == if r.Some? then (View(), r.value) else Scan(l, View(), dropped, false)
    {
      hide Scan, LengthOf;
      ghost var l := Limits(maxPayload, maxDiscarded);
      ghost var s := View().(input := [START2] + input);
      ScanFrame(l, s, before);
      dropped := before;
      if |input| < 2 {
        input := [];
        return Some(Ended(dropped)), dropped;
      }
      var length := LengthOf(input[0], input[1]);
      input := input[2..];
      assert input == s.input[3..];
      if length == 0 || length > maxPayload {
        ScanBadHeader(l, s, dropped);
        dropped := dropped + 4;
        discarded := discarded + 4;
        r := if discarded > maxDiscarded then Some(NoFrames(dropped)) else None;
        return;
      }
      if |input| < length {
        input := [];
        return Some(Ended(dropped)), dropped;
      }
      Slices(s.input, length);
      var payload := input[..length];
      input := input[length..];
      discarded := 0;
      seenFrames := seenFrames + 1;
      r := Some(Frame(payload, dropped));
    }
  }
}

/** A run in which the answer to a pruned delivery deletes the next one that goes by its identifier. */
module StaleAnswers {
  import opened Common
  import opened BucketOrder
  import opened OutboxTypes
  import O = Outbox
  import opened OutboxInvariant
  import R = OutboxRuns
  import OutboxLaws
  import DueIndex
  import Dispatch
  import opened DeliveryRuns

  const ID: Key := [1]
  const FAILURE := AttemptFailure(0, Text(""), Text(""), "")
  const OWNER := Binding("owner", "agent", "installation", 0, 0)

  function EventWith(envelope: byte): Event {
    Event(ID, [envelope], "", "", "owner", "agent", "installation", 0, 0, "")
  }

  function Input(envelope: byte): Delivery {
    Delivery(EventWith(envelope), Pending, 0, 0, 0, 0, FAILURE, None, Text(""))
  }

  function Record(envelope: byte, sequence: nat, now: Timestamp): Delivery {
    O.Accepted(Input(envelope), None, None, sequence, now)
  }

  function Holding(deliveries: O.Bucket, quarantine: O.Bucket, lastSequence: nat, reconciled: Option<Principal>): O.Outbox {
    O.Outbox(deliveries, quarantine, lastSequence, None, None, reconciled)
  }

  /** Room for one record at a time, records of no size, a second of retention. */
  function Small(): Config {
    Config(1, 0, SECOND, (d: Delivery) => 0)
  }

  lemma {:induction false} NoSize(m: O.Bucket)
    ensures O.Total(Small().size, m) == 0
    decreases |m|
  {
    if m != map[] {
      var k :| k in m;
      O.TotalWithout(Small().size, m, k);
      NoSize(m - {k});
    }
  }

  lemma NothingUsed(o: O.Outbox)
    ensures O.Used(Small(), o) == 0
  {
    NoSize(o.deliveries);
    NoSize(o.quarantine);
  }

  // The outbox, transaction by transaction

  lemma Accepts(o: O.Outbox, envelope: byte, now: Timestamp)
    requires o.deliveries == map[] && o.quarantine == map[] && (o.reconciled.Some? ==> o.reconciled.value == PrincipalOf(OWNER))
    ensures O.Enqueue(Small(), o, Input(envelope), None, None, now) ==
            (o.(deliveries := map[ID := Record(envelope, o.lastSequence + 1, now)], lastSequence := o.lastSequence + 1), Done)
  {
    NothingUsed(o);
    hide O.Used;
  }

  lemma Reconciles(o: O.Outbox, d: Delivery, now: Timestamp)
    requires o.deliveries == map[ID := d] && SenderOf(d) == PrincipalOf(OWNER) && o.reconciled.None?
    ensures O.Reconcile(Small(), o, OWNER, now) == (o.(reconciled := Some(PrincipalOf(OWNER))), Done)
  {
    OutboxLaws.NothingToMove(Small(), o, OWNER, now);
    hide O.FullReconcile;
  }

  lemma Picks(o: O.Outbox, d: Delivery, now: Timestamp)
    requires o.deliveries == map[ID := d] && d.state.Pending? && d.nextAttemptAt <= now
    ensures DueIndex.NextDue(o, now) == Some(d)
  {
    assert o.deliveries[ID] == d;
    DueIndex.AnswerIsNextDue(o, now, Some(d));
  }

  lemma Marks(o: O.Outbox, d: Delivery)
    requires o.deliveries == map[ID := d] && d.state.Pending?
    ensures O.MarkInflight(Small(), o, ID) == (o.(deliveries := map[ID := d.(state := Inflight)]), Done)
  {
    var o' := o.(deliveries := map[ID := d.(state := Inflight)]);
    assert o.deliveries[ID := d.(state := Inflight)] == map[ID := d.(state := Inflight)];
    NothingUsed(o');
    hide O.Used;
  }

  lemma SetsAside(o: O.Outbox, d: Delivery, now: Timestamp)
    requires o.deliveries == map[ID := d] && o.quarantine == map[]
    ensures O.Quarantine(Small(), o, ID, Text(""), FAILURE, now) ==
            (o.(deliveries := map[], quarantine := map[ID := O.Stamp(O.ByFailure(Text(""), FAILURE), d, now)]), Done)
  {
    var cause := O.ByFailure(Text(""), FAILURE);
    var m := O.Moved(o, [ID], cause, now);
    assert m.deliveries == map[] && m.quarantine == map[ID := O.Stamp(cause, d, now)];
    forall n | 0 < n <= 1 ensures O.Used(Small(), O.Moved(o, [ID][..n], cause, now)) <= 0 {
      NothingUsed(O.Moved(o, [ID][..n], cause, now));
    }
    hide O.Used, O.Moved;
  }

  lemma Prunes(o: O.Outbox, d: Delivery, now: Timestamp)
    requires o.quarantine == map[ID := d] && O.Expired(Small(), d, now)
    ensures O.Pruned(Small(), o, now) == o.(quarantine := map[])
  {
    assert O.Pruned(Small(), o, now).quarantine == map[];
  }

  // The moves

  const ACCEPT_FIRST := Elsewhere(R.Step(R.DoEnqueue(Input(1), None, None), 0))
  const SET_ASIDE := Elsewhere(R.Step(R.DoQuarantine(ID, Text(""), FAILURE), 0))
  const PRUNE := Elsewhere(R.Step(R.DoPrune, SECOND))
  const ACCEPT_SECOND := Elsewhere(R.Step(R.DoEnqueue(Input(2), None, None), SECOND))

  /** Accept, dispatch up to the request, set aside, prune after the retention, accept the identifier again. */
  function StaleRun(): seq<Move> {
    [ACCEPT_FIRST, ClearPause(OWNER, 0), ReconcileNow(0), Pick, Mark(0), SET_ASIDE, PRUNE, ACCEPT_SECOND]
  }

  const RECONCILED := Some(PrincipalOf(OWNER))

  function FirstHalf(n: nat): System {
    var r := Record(1, 1, 0);
    if n == 1 then System(Holding(map[ID := r], map[], 1, None), AtRest)
    else if n == 2 then System(Holding(map[ID := r], map[], 1, None), Unpaused(OWNER, 0))
    else if n == 3 then System(Holding(map[ID := r], map[], 1, RECONCILED), Checked(OWNER, 0))
    else System(Holding(map[ID := r], map[], 1, RECONCILED), Picked(OWNER, 0, r))
  }

  function SecondHalf(n: nat): System {
    var r := Record(1, 1, 0);
    var w := Posting(OWNER, 0, r);
    var inflight := r.(state := Inflight);
    if n == 5 then System(Holding(map[ID := inflight], map[], 1, RECONCILED), w)
    else if n == 6 then System(Holding(map[], map[ID := O.Stamp(O.ByFailure(Text(""), FAILURE), inflight, 0)], 1, RECONCILED), w)
    else if n == 7 then System(Holding(map[], map[], 1, RECONCILED), w)
    else System(Holding(map[ID := Record(2, 2, SECOND)], map[], 2, RECONCILED), w)
  }

  lemma UpToPicking()
    ensures Next(Small(), START, ACCEPT_FIRST) == FirstHalf(1)
    ensures Next(Small(), FirstHalf(1), ClearPause(OWNER, 0)) == FirstHalf(2)
    ensures Next(Small(), FirstHalf(2), ReconcileNow(0)) == FirstHalf(3)
    ensures Next(Small(), FirstHalf(3), Pick) == FirstHalf(4)
  {
    hide O.Enqueue, O.Reconcile, DueIndex.NextDue;
    Accepts(O.EMPTY, 1, 0);
    Reconciles(FirstHalf(2).outbox, Record(1, 1, 0), 0);
    Picks(FirstHalf(3).outbox, Record(1, 1, 0), 0);
  }

  lemma UpToAcceptingAgain()
    ensures Next(Small(), FirstHalf(4), Mark(0)) == SecondHalf(5)
    ensures Next(Small(), SecondHalf(5), SET_ASIDE) == SecondHalf(6)
    ensures Next(Small(), SecondHalf(6), PRUNE) == SecondHalf(7)
    ensures Next(Small(), SecondHalf(7), ACCEPT_SECOND) == SecondHalf(8)
  {
    hide O.Enqueue, O.MarkInflight, O.Quarantine, O.Pruned;
    var r := Record(1, 1, 0);
    Marks(FirstHalf(4).outbox, r);
    SetsAside(SecondHalf(5).outbox, r.(state := Inflight), 0);
    Prunes(SecondHalf(6).outbox, O.Stamp(O.ByFailure(Text(""), FAILURE), r.(state := Inflight), 0), SECOND);
    Accepts(SecondHalf(7).outbox, 2, SECOND);
  }

  lemma RunIs()
    ensures Run(Small(), START, StaleRun()) == SecondHalf(8)
  {
    UpToPicking();
    UpToAcceptingAgain();
    var m := StaleRun();
    hide Next, FirstHalf, SecondHalf;
    assert m[..8] == m;
    UpTo(m, FirstHalf(1), FirstHalf(2), FirstHalf(3), FirstHalf(4));
    AndOn(m, FirstHalf(4), SecondHalf(5), SecondHalf(6), SecondHalf(7), SecondHalf(8));
  }

  lemma UpTo(m: seq<Move>, a: System, b: System, c: System, d: System)
    requires |m| >= 4
    requires Next(Small(), START, m[0]) == a && Next(Small(), a, m[1]) == b && Next(Small(), b, m[2]) == c && Next(Small(), c, m[3]) == d
    ensures Run(Small(), START, m[..4]) == d
  {
    hide Next, Run;
    NoMove(Small(), START);
    PrefixMore(m, START, 0);
    PrefixMore(m, START, 1);
    PrefixMore(m, START, 2);
    PrefixMore(m, START, 3);
    assert m[..0] == [];
  }

  lemma AndOn(m: seq<Move>, d: System, e: System, f: System, g: System, h: System)
    requires |m| >= 8 && Run(Small(), START, m[..4]) == d
    requires Next(Small(), d, m[4]) == e && Next(Small(), e, m[5]) == f && Next(Small(), f, m[6]) == g && Next(Small(), g, m[7]) == h
    ensures Run(Small(), START, m[..8]) == h
  {
    hide Next, Run;
    PrefixMore(m, START, 4);
    PrefixMore(m, START, 5);
    PrefixMore(m, START, 6);
    PrefixMore(m, START, 7);
  }

  lemma PrefixMore(m: seq<Move>, s: System, i: nat)
    requires i < |m|
    ensures Run(Small(), s, m[..i + 1]) == Next(Small(), Run(Small(), s, m[..i]), m[i])
  {
    hide Next;
    OneMore(Small(), s, m[..i], m[i]);
    assert m[..i] + [m[i]] == m[..i + 1];
  }

  /**
   From an empty outbox, in moves each of which is the next transaction of a dispatch or one that may fall between: the
   second delivery of the identifier waits, and the acknowledgement of the first deletes it, never posted and never pruned.
   */
  lemma StaleAnswerDeletes() returns (s: System, moves: seq<Move>)
    ensures s == Run(Small(), START, StaleRun()) && Inv(s.outbox) && ID in s.outbox.deliveries
    ensures s.outbox.deliveries[ID].event == EventWith(2) && s.dispatcher.Posting? && s.dispatcher.d.event == EventWith(1)
    ensures moves == [Answer(Dispatch.Acknowledged), Settle(0)]
    ensures !Kept(Small(), s, moves, s.outbox.deliveries[ID], ID) && !Ends(Small(), s, moves, s.outbox.deliveries[ID], ID)
  {
    RunIs();
    EmptyIsConsistent();
    s := SecondHalf(8);
    moves := Mishap(s.dispatcher, 0);
    hide Kept, Ends, Run, Inv;
    RunKeepsInvariant(Small(), START, StaleRun());
    PostingMishap(Small(), s, ID, 0);
  }
}

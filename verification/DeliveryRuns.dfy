/**
 The outbox with its dispatcher at work: each durable transaction of a dispatch, the request and its answer are steps
 of their own, and any other transaction, pruning or crash may fall between any two of them.
 */
module DeliveryRuns {
  import opened Common
  import opened BucketOrder
  import opened OutboxTypes
  import O = Outbox
  import opened OutboxInvariant
  import R = OutboxRuns
  import DueIndex
  import opened Dispatch
  import DispatchLaws
  import OutboxLaws

  /** How far the current dispatch is, and the record it has picked. */
  datatype Dispatcher =
    | AtRest
    | Unpaused(b: Binding, now: Timestamp)
    | Checked(b: Binding, now: Timestamp)
    | Picked(b: Binding, now: Timestamp, d: Delivery)
    | Posting(b: Binding, now: Timestamp, d: Delivery)
    | Answered(b: Binding, now: Timestamp, d: Delivery, response: Response)

  datatype System = System(outbox: O.Outbox, dispatcher: Dispatcher)

  /** Elsewhere stands for every transaction that is not the dispatcher's own; only the dispatcher deletes. */
  datatype Move =
    | ClearPause(b: Binding, now: Timestamp)
    | ReconcileNow(at: Timestamp)
    | Pick
    | Mark(at: Timestamp)
    | Answer(response: Response)
    | Settle(at: Timestamp)
    | Elsewhere(step: R.Step)

  /** The store transaction a move makes, if it makes one. */
  function TransactionOf(s: System, m: Move): Option<R.Step> {
    var w := s.dispatcher;
    match m
    case ClearPause(b, now) => if w.AtRest? then Some(R.Step(R.DoClearPause(b), now)) else None
    case ReconcileNow(at) => if w.Unpaused? then Some(R.Step(R.DoReconcile(w.b), at)) else None
    case Mark(at) => if w.Picked? then Some(R.Step(R.DoMarkInflight(w.d.event.deliveryId), at)) else None
    case Settle(at) =>
      if w.Answered? && ClockFits(w.now, w.response) then Some(R.Step(SettlingOp(w.d, w.b, w.now, w.response), at)) else None
    case Elsewhere(step) => if step.op.DoDelete? then None else Some(step)
    case _ => None
  }

  ghost function Outbox(cfg: Config, s: System, m: Move): (O.Outbox, Reply) {
    var t := TransactionOf(s, m);
    if t.Some? then R.Apply(cfg, s.outbox, t.value) else (s.outbox, Done)
  }

  ghost function Turned(cfg: Config, s: System, m: Move): Dispatcher {
    var w := s.dispatcher;
    var (o, r) := Outbox(cfg, s, m);
    match m
    case ClearPause(b, now) => if !w.AtRest? then w else if r.Failed? || o.pause.Some? then AtRest else Unpaused(b, now)
    case ReconcileNow(_) => if !w.Unpaused? then w else if r.Failed? then AtRest else Checked(w.b, w.now)
    case Pick =>
      if !w.Checked? then w else
        var next := DueIndex.NextDue(o, w.now);
        if next.None? then AtRest else Picked(w.b, w.now, next.value)
    case Mark(_) => if !w.Picked? then w else if r.Failed? then AtRest else Posting(w.b, w.now, w.d)
    case Answer(response) => if w.Posting? && ClockFits(w.now, response) then Answered(w.b, w.now, w.d, response) else w
    case Settle(_) => if w.Answered? then AtRest else w
    case Elsewhere(step) => if step.op.Crash? then AtRest else w
  }

  /** Moves whose turn it is not change nothing. */
  ghost function Next(cfg: Config, s: System, m: Move): System {
    System(Outbox(cfg, s, m).0, Turned(cfg, s, m))
  }

  ghost function Run(cfg: Config, s: System, moves: seq<Move>): System {
    if moves == [] then s else Next(cfg, Run(cfg, s, moves[..|moves| - 1]), moves[|moves| - 1])
  }

  lemma NextKeepsInvariant(cfg: Config, s: System, m: Move)
    requires Inv(s.outbox)
    ensures Inv(Next(cfg, s, m).outbox)
  {
    hide Inv, R.Apply, Turned, R.Preserves;
    var t := TransactionOf(s, m);
    if t.Some? {
      R.StepSound(cfg, s.outbox, t.value);
      NextIsApplied(cfg, s.outbox, t.value);
    }
  }

  lemma NextIsApplied(cfg: Config, o: O.Outbox, step: R.Step)
    ensures R.Next(cfg, o, step) == R.Apply(cfg, o, step).0
  {
    hide R.Apply;
  }

  lemma {:induction false} RunKeepsInvariant(cfg: Config, s: System, moves: seq<Move>)
    requires Inv(s.outbox)
    ensures Inv(Run(cfg, s, moves).outbox)
    decreases |moves|
  {
    hide Inv, Next;
    if moves != [] {
      RunKeepsInvariant(cfg, s, moves[..|moves| - 1]);
      NextKeepsInvariant(cfg, Run(cfg, s, moves[..|moves| - 1]), moves[|moves| - 1]);
    }
  }

  // One delivery over a run

  ghost predicate Holds(o: O.Outbox, original: Delivery, id: Key) {
    Has(o, id) && SameDelivery(original, At(o, id)) && (id in o.deliveries <==> id !in o.quarantine)
  }

  /** The dispatcher has a record of this identifier in hand. */
  predicate InHand(w: Dispatcher, id: Key) {
    (w.Picked? || w.Posting? || w.Answered?) && w.d.event.deliveryId == id
  }

  /** A record in hand under this identifier is the one that waits, and no acknowledgement of one is already held. */
  predicate HandFits(s: System, id: Key)
    requires id in s.outbox.deliveries
  {
    InHand(s.dispatcher, id) ==>
      if s.dispatcher.Answered? then !s.dispatcher.response.Acknowledged? else SameDelivery(s.outbox.deliveries[id], s.dispatcher.d)
  }

  /** Move i put the record into quarantine. */
  ghost predicate SetAsideAt(cfg: Config, s: System, moves: seq<Move>, id: Key, i: nat) {
    && i < |moves|
    && id in Run(cfg, s, moves[..i]).outbox.deliveries && id in Run(cfg, s, moves[..i + 1]).outbox.quarantine
    && TransactionOf(Run(cfg, s, moves[..i]), moves[i]).Some?
  }

  ghost function TimeAt(cfg: Config, s: System, moves: seq<Move>, i: nat): Timestamp
    requires i < |moves|
  {
    var t := TransactionOf(Run(cfg, s, moves[..i]), moves[i]);
    if t.Some? then t.value.now else 0
  }

  /** Move i answered a request that carried this very delivery. */
  ghost predicate PostAnsweredAt(cfg: Config, s: System, moves: seq<Move>, original: Delivery, response: Response, i: nat) {
    && i < |moves| && moves[i] == Answer(response)
    && var w := Run(cfg, s, moves[..i]).dispatcher;
    && w.Posting? && ClockFits(w.now, response) && SameDelivery(original, w.d)
  }

  /** Move i deletes the delivery, which was posted with what its caller gave unchanged and has been acknowledged. */
  ghost predicate AcknowledgedAt(cfg: Config, s: System, moves: seq<Move>, original: Delivery, id: Key, i: nat) {
    && i < |moves| && moves[i].Settle?
    && Holds(Run(cfg, s, moves[..i]).outbox, original, id) && !Has(Run(cfg, s, moves[..i + 1]).outbox, id)
    && exists j | 0 <= j < i :: PostAnsweredAt(cfg, s, moves, original, Acknowledged, j)
  }

  /** Move i removes the delivery to make room, at least the retention after the move that quarantined it. */
  ghost predicate PrunedAt(cfg: Config, s: System, moves: seq<Move>, original: Delivery, id: Key, i: nat) {
    && i < |moves|
    && Holds(Run(cfg, s, moves[..i]).outbox, original, id) && !Has(Run(cfg, s, moves[..i + 1]).outbox, id)
    && var t := TransactionOf(Run(cfg, s, moves[..i]), moves[i]);
    && t.Some? && R.MakesRoom(t.value.op)
    && exists j | 0 <= j < i :: SetAsideAt(cfg, s, moves, id, j) && TimeAt(cfg, s, moves, j) + cfg.retention <= t.value.now
  }

  /** What is in hand under this identifier is this delivery, and an acknowledgement was given to a request that carried it. */
  ghost predicate HandKnows(cfg: Config, s: System, moves: seq<Move>, original: Delivery, id: Key) {
    var w := Run(cfg, s, moves).dispatcher;
    && (InHand(w, id) && !w.Answered? ==> SameDelivery(original, w.d))
    && (InHand(w, id) && w.Answered? && w.response.Acknowledged? ==>
          exists j | 0 <= j < |moves| :: PostAnsweredAt(cfg, s, moves, original, Acknowledged, j))
  }

  /** The delivery is in exactly one bucket, unchanged, and in quarantine only since the move that put it there. */
  ghost predicate Kept(cfg: Config, s: System, moves: seq<Move>, original: Delivery, id: Key) {
    && var o := Run(cfg, s, moves).outbox;
    && Holds(o, original, id)
    && (id in o.quarantine ==>
          exists j | 0 <= j < |moves| :: SetAsideAt(cfg, s, moves, id, j) && o.quarantine[id].quarantinedAt == Some(TimeAt(cfg, s, moves, j)))
  }

  ghost predicate Survives(cfg: Config, s: System, moves: seq<Move>, original: Delivery, id: Key) {
    Kept(cfg, s, moves, original, id) && HandKnows(cfg, s, moves, original, id)
  }

  ghost predicate Ends(cfg: Config, s: System, moves: seq<Move>, original: Delivery, id: Key) {
    exists i | 0 <= i < |moves| :: AcknowledgedAt(cfg, s, moves, original, id, i) || PrunedAt(cfg, s, moves, original, id, i)
  }

  // Facts about a prefix stay true

  lemma Prefix(moves: seq<Move>, n: nat, j: nat)
    requires j <= n <= |moves|
    ensures moves[..n][..j] == moves[..j]
  {
  }

  lemma SetAsideEarlier(cfg: Config, s: System, moves: seq<Move>, id: Key, n: nat, j: nat)
    requires n <= |moves| && SetAsideAt(cfg, s, moves[..n], id, j)
    ensures SetAsideAt(cfg, s, moves, id, j) && TimeAt(cfg, s, moves, j) == TimeAt(cfg, s, moves[..n], j)
  {
    hide Run, TransactionOf;
    Prefix(moves, n, j);
    Prefix(moves, n, j + 1);
  }

  lemma PostAnsweredEarlier(cfg: Config, s: System, moves: seq<Move>, original: Delivery, response: Response, n: nat, j: nat)
    requires n <= |moves| && PostAnsweredAt(cfg, s, moves[..n], original, response, j)
    ensures PostAnsweredAt(cfg, s, moves, original, response, j)
  {
    hide Run;
    Prefix(moves, n, j);
  }

  lemma EndsEarlier(cfg: Config, s: System, moves: seq<Move>, original: Delivery, id: Key, n: nat)
    requires n <= |moves| && Ends(cfg, s, moves[..n], original, id)
    ensures Ends(cfg, s, moves, original, id)
  {
    hide Run, TransactionOf, Holds, SetAsideAt, PostAnsweredAt, TimeAt;
    var i :| 0 <= i < n && (AcknowledgedAt(cfg, s, moves[..n], original, id, i) || PrunedAt(cfg, s, moves[..n], original, id, i));
    Prefix(moves, n, i);
    Prefix(moves, n, i + 1);
    if AcknowledgedAt(cfg, s, moves[..n], original, id, i) {
      var j :| 0 <= j < i && PostAnsweredAt(cfg, s, moves[..n], original, Acknowledged, j);
      PostAnsweredEarlier(cfg, s, moves, original, Acknowledged, n, j);
      assert AcknowledgedAt(cfg, s, moves, original, id, i);
    } else {
      var t := TransactionOf(Run(cfg, s, moves[..i]), moves[i]);
      var j :| 0 <= j < i && SetAsideAt(cfg, s, moves[..n], id, j) && TimeAt(cfg, s, moves[..n], j) + cfg.retention <= t.value.now;
      SetAsideEarlier(cfg, s, moves, id, n, j);
      assert PrunedAt(cfg, s, moves, original, id, i);
    }
  }

  // One more move

  /** Settling deletes only what it has posted, and only when that was acknowledged. */
  lemma DeletesAcknowledged(s: System, m: Move, id: Key)
    requires TransactionOf(s, m).Some? && TransactionOf(s, m).value.op == R.DoDelete(id)
    ensures m.Settle? && s.dispatcher.Answered? && s.dispatcher.response.Acknowledged? && s.dispatcher.d.event.deliveryId == id
  {
  }

  lemma HandStays(cfg: Config, s: System, moves: seq<Move>, original: Delivery, id: Key)
    requires moves != [] && Survives(cfg, s, moves[..|moves| - 1], original, id)
    requires Inv(Run(cfg, s, moves[..|moves| - 1]).outbox)
    ensures HandKnows(cfg, s, moves, original, id)
  {
    var n := |moves| - 1;
    var before, m := Run(cfg, s, moves[..n]), moves[n];
    var w, w' := before.dispatcher, Run(cfg, s, moves).dispatcher;
    hide Inv, Run, R.Apply, TransactionOf, DueIndex.NextDue, PostAnsweredAt, SetAsideAt, TimeAt, SameDelivery;
    assert w' == Turned(cfg, before, m) by { RunLast(cfg, s, moves); }
    if w.Checked? && m.Pick? {
      PickedIsStored(cfg, before, original, id);
    }
    if w'.Answered? && w'.d.event.deliveryId == id && w'.response.Acknowledged? {
      if w.Answered? {
        var j :| 0 <= j < n && PostAnsweredAt(cfg, s, moves[..n], original, Acknowledged, j);
        PostAnsweredEarlier(cfg, s, moves, original, Acknowledged, n, j);
      } else {
        AnsweredNow(cfg, s, moves, original);
      }
    }
  }

  lemma RunLast(cfg: Config, s: System, moves: seq<Move>)
    requires moves != []
    ensures Run(cfg, s, moves) == Next(cfg, Run(cfg, s, moves[..|moves| - 1]), moves[|moves| - 1])
  {
  }

  lemma AnsweredNow(cfg: Config, s: System, moves: seq<Move>, original: Delivery)
    requires moves != [] && moves[|moves| - 1].Answer?
    requires var w := Run(cfg, s, moves[..|moves| - 1]).dispatcher;
             w.Posting? && SameDelivery(original, w.d) && ClockFits(w.now, moves[|moves| - 1].response)
    ensures PostAnsweredAt(cfg, s, moves, original, moves[|moves| - 1].response, |moves| - 1)
  {
  }

  lemma PickedIsStored(cfg: Config, s: System, original: Delivery, id: Key)
    requires Inv(s.outbox) && Holds(s.outbox, original, id) && s.dispatcher.Checked?
    ensures var next := DueIndex.NextDue(s.outbox, s.dispatcher.now);
            next.Some? && next.value.event.deliveryId == id ==> SameDelivery(original, next.value)
  {
    var next := DueIndex.NextDue(s.outbox, s.dispatcher.now);
    if next.Some? {
      DispatchLaws.NextDueIsWaiting(s.outbox, s.dispatcher.now);
    }
    hide Inv, DueIndex.NextDue;
  }

  lemma LastMove(cfg: Config, s: System, moves: seq<Move>, original: Delivery, id: Key)
    requires moves != [] && Survives(cfg, s, moves[..|moves| - 1], original, id)
    requires Inv(Run(cfg, s, moves[..|moves| - 1]).outbox)
    ensures Survives(cfg, s, moves, original, id) || Ends(cfg, s, moves, original, id)
  {
    var n := |moves| - 1;
    var before, m := Run(cfg, s, moves[..n]), moves[n];
    HandStays(cfg, s, moves, original, id);
    RunLast(cfg, s, moves);
    var t := TransactionOf(before, m);
    var after := Run(cfg, s, moves);
    if t.Some? {
      R.StepSound(cfg, before.outbox, t.value);
      NextIsApplied(cfg, before.outbox, t.value);
      assert after.outbox == R.Next(cfg, before.outbox, t.value);
    }
    assert moves[..n + 1] == moves;
    hide Inv, Run, R.Apply, R.Next, TransactionOf, Turned, HandKnows;
    if t.Some? {
      assert R.Preserves(cfg, before.outbox, after.outbox, t.value, id);
    }
    if Has(after.outbox, id) {
      StillThere(cfg, s, moves, original, id);
    } else {
      GoneNow(cfg, s, moves, original, id);
    }
  }

  lemma StillThere(cfg: Config, s: System, moves: seq<Move>, original: Delivery, id: Key)
    requires moves != [] && Survives(cfg, s, moves[..|moves| - 1], original, id) && HandKnows(cfg, s, moves, original, id)
    requires Has(Run(cfg, s, moves).outbox, id)
    requires var before := Run(cfg, s, moves[..|moves| - 1]).outbox;
             var t := TransactionOf(Run(cfg, s, moves[..|moves| - 1]), moves[|moves| - 1]);
             if t.Some? then R.Preserves(cfg, before, Run(cfg, s, moves).outbox, t.value, id) else Run(cfg, s, moves).outbox == before
    ensures Survives(cfg, s, moves, original, id)
  {
    var n := |moves| - 1;
    var before, after := Run(cfg, s, moves[..n]), Run(cfg, s, moves);
    var t := TransactionOf(before, moves[n]);
    assert moves[..n + 1] == moves;
    hide Run, TransactionOf, HandKnows;
    assert Holds(after.outbox, original, id);
    if id in before.outbox.quarantine {
      var j :| 0 <= j < n && SetAsideAt(cfg, s, moves[..n], id, j) && before.outbox.quarantine[id].quarantinedAt == Some(TimeAt(cfg, s, moves[..n], j));
      SetAsideEarlier(cfg, s, moves, id, n, j);
    } else if id in after.outbox.quarantine {
      assert SetAsideAt(cfg, s, moves, id, n);
    }
  }

  lemma GoneNow(cfg: Config, s: System, moves: seq<Move>, original: Delivery, id: Key)
    requires moves != [] && Survives(cfg, s, moves[..|moves| - 1], original, id)
    requires !Has(Run(cfg, s, moves).outbox, id)
    requires var before := Run(cfg, s, moves[..|moves| - 1]).outbox;
             var t := TransactionOf(Run(cfg, s, moves[..|moves| - 1]), moves[|moves| - 1]);
             if t.Some? then R.Preserves(cfg, before, Run(cfg, s, moves).outbox, t.value, id) else Run(cfg, s, moves).outbox == before
    ensures Ends(cfg, s, moves, original, id)
  {
    var n := |moves| - 1;
    var before := Run(cfg, s, moves[..n]);
    var t := TransactionOf(before, moves[n]).value;
    assert moves[..n + 1] == moves;
    hide Run, TransactionOf, PostAnsweredAt, SetAsideAt, TimeAt;
    if t.op == R.DoDelete(id) {
      DeletesAcknowledged(before, moves[n], id);
      var j :| 0 <= j < n && PostAnsweredAt(cfg, s, moves[..n], original, Acknowledged, j);
      PostAnsweredEarlier(cfg, s, moves, original, Acknowledged, n, j);
      assert AcknowledgedAt(cfg, s, moves, original, id, n);
    } else {
      var j :| 0 <= j < n && SetAsideAt(cfg, s, moves[..n], id, j) && before.outbox.quarantine[id].quarantinedAt == Some(TimeAt(cfg, s, moves[..n], j));
      SetAsideEarlier(cfg, s, moves, id, n, j);
      assert PrunedAt(cfg, s, moves, original, id, n);
    }
  }

  /**
   A waiting delivery stays in exactly one bucket, with what its caller gave unchanged, until the cloud has
   acknowledged a request that carried it, or room is made at least the retention after its quarantine: over every
   run of enqueues, dispatches, reconciliation, rotation, operator actions, pruning and crashes, in any interleaving.
   */
  lemma KeptUntilAcknowledged(cfg: Config, s: System, moves: seq<Move>, id: Key)
    requires Inv(s.outbox) && id in s.outbox.deliveries && HandFits(s, id)
    ensures Kept(cfg, s, moves, s.outbox.deliveries[id], id) || Ends(cfg, s, moves, s.outbox.deliveries[id], id)
  {
    hide *;
    SurvivesOrEnds(cfg, s, moves, id);
    SurvivorIsKept(cfg, s, moves, s.outbox.deliveries[id], id);
  }

  lemma SurvivorIsKept(cfg: Config, s: System, moves: seq<Move>, original: Delivery, id: Key)
    ensures Survives(cfg, s, moves, original, id) ==> Kept(cfg, s, moves, original, id)
  {
    hide Kept, HandKnows;
  }

  lemma {:induction false} SurvivesOrEnds(cfg: Config, s: System, moves: seq<Move>, id: Key)
    requires Inv(s.outbox) && id in s.outbox.deliveries && HandFits(s, id)
    ensures Survives(cfg, s, moves, s.outbox.deliveries[id], id) || Ends(cfg, s, moves, s.outbox.deliveries[id], id)
    decreases |moves|
  {
    hide Next, Inv, Survives, Ends, HandFits;
    var original := s.outbox.deliveries[id];
    if moves == [] {
      SurvivesAtFirst(cfg, s, id);
    } else {
      var n := |moves| - 1;
      SurvivesOrEnds(cfg, s, moves[..n], id);
      RunKeepsInvariant(cfg, s, moves[..n]);
      if Survives(cfg, s, moves[..n], original, id) {
        LastMove(cfg, s, moves, original, id);
      } else {
        EndsEarlier(cfg, s, moves, original, id, n);
      }
    }
  }

  lemma SurvivesAtFirst(cfg: Config, s: System, id: Key)
    requires Inv(s.outbox) && id in s.outbox.deliveries && HandFits(s, id)
    ensures Survives(cfg, s, [], s.outbox.deliveries[id], id)
  {
  }

  // The condition on what is in hand is needed

  /** A record that has been picked can still be marked, so that it will be posted. */
  ghost predicate CanMark(cfg: Config, o: O.Outbox, id: Key) {
    O.MarkInflight(cfg, o, id).1.Done?
  }

  /** The moves by which a record in hand that does not fit makes the waiting one disappear. */
  function Mishap(w: Dispatcher, at: Timestamp): seq<Move> {
    match w
    case Picked(_, _, _) => [Mark(at), Answer(Acknowledged), Settle(at)]
    case Posting(_, _, _) => [Answer(Acknowledged), Settle(at)]
    case _ => [Settle(at)]
  }

  lemma SettlingDeletes(cfg: Config, s: System, at: Timestamp)
    requires s.dispatcher.Answered? && s.dispatcher.response.Acknowledged? && Inv(s.outbox)
    requires s.dispatcher.d.event.deliveryId in s.outbox.deliveries
    ensures !Has(Next(cfg, s, Settle(at)).outbox, s.dispatcher.d.event.deliveryId)
  {
  }

  /** A run without a fitting post and without making room ends no delivery properly. */
  lemma NoProperEnd(cfg: Config, s: System, moves: seq<Move>, original: Delivery, id: Key)
    requires forall i | 0 <= i < |moves| :: !moves[i].Elsewhere?
    requires forall i | 0 <= i < |moves| :: !PostAnsweredAt(cfg, s, moves, original, Acknowledged, i)
    ensures !Ends(cfg, s, moves, original, id)
  {
    hide Run, Holds, SetAsideAt, PostAnsweredAt, TimeAt;
    forall i | 0 <= i < |moves| ensures !PrunedAt(cfg, s, moves, original, id, i) {
      NoRoomMade(Run(cfg, s, moves[..i]), moves[i]);
    }
  }

  lemma NoRoomMade(s: System, m: Move)
    requires !m.Elsewhere?
    ensures TransactionOf(s, m).Some? ==> !R.MakesRoom(TransactionOf(s, m).value.op)
  {
  }

  lemma Gone(cfg: Config, s: System, moves: seq<Move>, original: Delivery, id: Key)
    requires !Has(Run(cfg, s, moves).outbox, id)
    ensures !Kept(cfg, s, moves, original, id)
  {
    hide Run;
  }

  lemma AnsweredMishap(cfg: Config, s: System, id: Key, at: Timestamp)
    requires Inv(s.outbox) && id in s.outbox.deliveries && InHand(s.dispatcher, id)
    requires s.dispatcher.Answered? && s.dispatcher.response.Acknowledged?
    ensures var moves := Mishap(s.dispatcher, at);
            !Kept(cfg, s, moves, s.outbox.deliveries[id], id) && !Ends(cfg, s, moves, s.outbox.deliveries[id], id)
  {
    var original, moves := s.outbox.deliveries[id], Mishap(s.dispatcher, at);
    SettlingDeletes(cfg, s, at);
    hide Inv, Next, Kept, Ends;
    OneMore(cfg, s, [], Settle(at));
    NoMove(cfg, s);
    assert [] + [Settle(at)] == moves;
    Gone(cfg, s, moves, original, id);
    NoProperEnd(cfg, s, moves, original, id);
  }

  lemma PostingMishap(cfg: Config, s: System, id: Key, at: Timestamp)
    requires Inv(s.outbox) && id in s.outbox.deliveries && InHand(s.dispatcher, id)
    requires s.dispatcher.Posting? && !SameDelivery(s.outbox.deliveries[id], s.dispatcher.d)
    ensures var moves := Mishap(s.dispatcher, at);
            !Kept(cfg, s, moves, s.outbox.deliveries[id], id) && !Ends(cfg, s, moves, s.outbox.deliveries[id], id)
  {
    var original, moves := s.outbox.deliveries[id], Mishap(s.dispatcher, at);
    var t := AfterAnswer(cfg, s);
    SettlingDeletes(cfg, t, at);
    hide Inv, Next, Kept, Ends, SameDelivery;
    NoMove(cfg, s);
    OneMore(cfg, s, [], moves[0]);
    OneMore(cfg, s, [moves[0]], moves[1]);
    assert [] + [moves[0]] == [moves[0]] && [moves[0]] + [moves[1]] == moves;
    Gone(cfg, s, moves, original, id);
    assert moves[..0] == [] && moves[..1] == [moves[0]];
    NoProperEnd(cfg, s, moves, original, id);
  }

  lemma AfterAnswer(cfg: Config, s: System) returns (t: System)
    requires s.dispatcher.Posting?
    ensures t == Next(cfg, s, Answer(Acknowledged))
    ensures t == System(s.outbox, Answered(s.dispatcher.b, s.dispatcher.now, s.dispatcher.d, Acknowledged))
  {
    t := Next(cfg, s, Answer(Acknowledged));
  }

  lemma AfterMark(cfg: Config, s: System, at: Timestamp) returns (t: System)
    requires Inv(s.outbox) && s.dispatcher.Picked? && CanMark(cfg, s.outbox, s.dispatcher.d.event.deliveryId)
    requires s.dispatcher.d.event.deliveryId in s.outbox.deliveries
    ensures t == Next(cfg, s, Mark(at)) && Inv(t.outbox)
    ensures t.dispatcher == Posting(s.dispatcher.b, s.dispatcher.now, s.dispatcher.d)
    ensures var id := s.dispatcher.d.event.deliveryId;
            id in t.outbox.deliveries && SameDelivery(s.outbox.deliveries[id], t.outbox.deliveries[id])
  {
    var id := s.dispatcher.d.event.deliveryId;
    t := Next(cfg, s, Mark(at));
    DispatchLaws.MarkedState(cfg, s.outbox, id);
    NextKeepsInvariant(cfg, s, Mark(at));
    hide Inv, O.MarkInflight;
  }

  lemma PickedMishap(cfg: Config, s: System, id: Key, at: Timestamp)
    requires Inv(s.outbox) && id in s.outbox.deliveries && InHand(s.dispatcher, id)
    requires s.dispatcher.Picked? && CanMark(cfg, s.outbox, id) && !SameDelivery(s.outbox.deliveries[id], s.dispatcher.d)
    ensures var moves := Mishap(s.dispatcher, at);
            !Kept(cfg, s, moves, s.outbox.deliveries[id], id) && !Ends(cfg, s, moves, s.outbox.deliveries[id], id)
  {
    hide Inv, Next, Run, Kept, Ends, CanMark, SameDelivery, PostAnsweredAt;
    var original, moves := s.outbox.deliveries[id], Mishap(s.dispatcher, at);
    var a := AfterMark(cfg, s, at);
    var b := AfterAnswer(cfg, a);
    SettlingDeletes(cfg, b, at);
    NoMove(cfg, s);
    OneMore(cfg, s, [], moves[0]);
    OneMore(cfg, s, [moves[0]], moves[1]);
    OneMore(cfg, s, [moves[0], moves[1]], moves[2]);
    assert [] + [moves[0]] == [moves[0]] && [moves[0]] + [moves[1]] == [moves[0], moves[1]];
    assert [moves[0], moves[1]] + [moves[2]] == moves;
    Gone(cfg, s, moves, original, id);
    assert moves[..0] == [] && moves[..1] == [moves[0]] && moves[..2] == [moves[0], moves[1]];
    forall i | 0 <= i < |moves| ensures !PostAnsweredAt(cfg, s, moves, original, Acknowledged, i) {
      NotThisOne(cfg, s, moves, original, a.dispatcher, i);
    }
    NoProperEnd(cfg, s, moves, original, id);
  }

  lemma NotThisOne(cfg: Config, s: System, moves: seq<Move>, original: Delivery, w: Dispatcher, i: nat)
    requires i < |moves| && w.Posting? && !SameDelivery(original, w.d)
    requires moves[i].Answer? ==> Run(cfg, s, moves[..i]).dispatcher == w
    ensures !PostAnsweredAt(cfg, s, moves, original, Acknowledged, i)
  {
    hide Run, SameDelivery;
  }

  /**
   A waiting delivery is kept until it is acknowledged, over every run, exactly from the states in which what the
   dispatcher has in hand fits. Only for a record that is picked but not yet marked does this need the mark to be possible.
   */
  lemma KeptExactlyWhenHandFits(cfg: Config, s: System, id: Key)
    requires Inv(s.outbox) && id in s.outbox.deliveries
    requires InHand(s.dispatcher, id) && s.dispatcher.Picked? ==> CanMark(cfg, s.outbox, id)
    ensures HandFits(s, id) <==>
            forall moves :: Kept(cfg, s, moves, s.outbox.deliveries[id], id) || Ends(cfg, s, moves, s.outbox.deliveries[id], id)
  {
    var original := s.outbox.deliveries[id];
    if HandFits(s, id) {
      forall moves ensures Kept(cfg, s, moves, original, id) || Ends(cfg, s, moves, original, id) {
        KeptUntilAcknowledged(cfg, s, moves, id);
      }
    } else {
      hide Kept, Ends, Inv, CanMark, SameDelivery;
      match s.dispatcher
      case Picked(_, _, _) => PickedMishap(cfg, s, id, 0);
      case Posting(_, _, _) => PostingMishap(cfg, s, id, 0);
      case Answered(_, _, _, _) => AnsweredMishap(cfg, s, id, 0);
    }
  }

  // From acceptance on

  /** Move i accepts the identifier. */
  ghost predicate AcceptedAt(cfg: Config, s: System, moves: seq<Move>, id: Key, i: nat) {
    && i < |moves| && moves[i].Elsewhere? && moves[i].step.op.DoEnqueue? && moves[i].step.op.input.event.deliveryId == id
    && !Has(Run(cfg, s, moves[..i]).outbox, id) && id in Run(cfg, s, moves[..i + 1]).outbox.deliveries
  }

  ghost predicate EverAccepted(cfg: Config, s: System, moves: seq<Move>, id: Key) {
    exists i | 0 <= i < |moves| :: AcceptedAt(cfg, s, moves, id, i)
  }

  const START := System(O.EMPTY, AtRest)

  lemma EmptyIsConsistent()
    ensures Inv(START.outbox)
  {
  }

  lemma AcceptedEarlier(cfg: Config, s: System, moves: seq<Move>, id: Key, n: nat)
    requires n <= |moves| && EverAccepted(cfg, s, moves[..n], id)
    ensures EverAccepted(cfg, s, moves, id)
  {
    hide Run;
    var i :| 0 <= i < n && AcceptedAt(cfg, s, moves[..n], id, i);
    Prefix(moves, n, i);
    Prefix(moves, n, i + 1);
    assert AcceptedAt(cfg, s, moves, id, i);
  }

  /** A record is stored, or in the dispatcher's hand, only under an identifier that was accepted. */
  lemma {:induction false} OnlyAcceptedAppears(cfg: Config, moves: seq<Move>, id: Key)
    ensures var t := Run(cfg, START, moves); Has(t.outbox, id) || InHand(t.dispatcher, id) ==> EverAccepted(cfg, START, moves, id)
    decreases |moves|
  {
    hide Next, EverAccepted, Inv;
    if moves != [] {
      var n := |moves| - 1;
      OnlyAcceptedAppears(cfg, moves[..n], id);
      EmptyIsConsistent();
      RunKeepsInvariant(cfg, START, moves[..n]);
      if EverAccepted(cfg, START, moves[..n], id) {
        AcceptedEarlier(cfg, START, moves, id, n);
      } else {
        AppearsNow(cfg, Run(cfg, START, moves[..n]), moves[n], id);
        var t := Run(cfg, START, moves);
        if Has(t.outbox, id) || InHand(t.dispatcher, id) {
          AcceptedLast(cfg, START, moves, id);
        }
      }
    }
  }

  lemma AcceptedLast(cfg: Config, s: System, moves: seq<Move>, id: Key)
    requires moves != []
    requires var before, m := Run(cfg, s, moves[..|moves| - 1]), moves[|moves| - 1];
             m.Elsewhere? && m.step.op.DoEnqueue? && m.step.op.input.event.deliveryId == id
             && !Has(before.outbox, id) && id in Next(cfg, before, m).outbox.deliveries
    ensures EverAccepted(cfg, s, moves, id)
  {
    hide Next;
    assert moves[..|moves|] == moves;
    assert AcceptedAt(cfg, s, moves, id, |moves| - 1);
  }

  /** One move brings an identifier into the outbox only by accepting it, and into the hand only from the outbox. */
  lemma AppearsNow(cfg: Config, s: System, m: Move, id: Key)
    requires Inv(s.outbox) && !Has(s.outbox, id) && !InHand(s.dispatcher, id)
    ensures var t := Next(cfg, s, m);
            Has(t.outbox, id) || InHand(t.dispatcher, id) ==>
              && m.Elsewhere? && m.step.op.DoEnqueue? && m.step.op.input.event.deliveryId == id && id in t.outbox.deliveries
  {
    var t := TransactionOf(s, m);
    if t.Some? {
      NextIsApplied(cfg, s.outbox, t.value);
      if Has(R.Next(cfg, s.outbox, t.value), id) {
        OutboxLaws.NewIsAccepted(cfg, s.outbox, t.value, id);
        EnqueuesElsewhere(s, m);
      }
    }
    if m.Pick? && s.dispatcher.Checked? && DueIndex.NextDue(s.outbox, s.dispatcher.now).Some? {
      DispatchLaws.NextDueIsWaiting(s.outbox, s.dispatcher.now);
    }
    hide Inv, R.Apply, DueIndex.NextDue, TransactionOf, R.Next;
  }

  lemma EnqueuesElsewhere(s: System, m: Move)
    requires TransactionOf(s, m).Some? && TransactionOf(s, m).value.op.DoEnqueue?
    ensures m.Elsewhere? && m.step == TransactionOf(s, m).value
  {
  }

  /**
   From an empty outbox, whatever has happened before: an accepted delivery whose identifier was never accepted before is
   kept until it is acknowledged, over every run that follows.
   */
  lemma AcceptedIsKept(cfg: Config, before: seq<Move>, accept: Move, after: seq<Move>, id: Key)
    requires AcceptedAt(cfg, START, before + [accept], id, |before|) && !EverAccepted(cfg, START, before, id)
    ensures var s := Run(cfg, START, before + [accept]);
            && id in s.outbox.deliveries && HandFits(s, id)
            && (Kept(cfg, s, after, s.outbox.deliveries[id], id) || Ends(cfg, s, after, s.outbox.deliveries[id], id))
  {
    var moves := before + [accept];
    var s := Run(cfg, START, moves);
    assert moves[..|before|] == before && moves[..|before| + 1] == moves;
    OnlyAcceptedAppears(cfg, before, id);
    OneMore(cfg, START, before, accept);
    HandUntouched(cfg, Run(cfg, START, before), accept);
    hide Run, Kept, Ends, Next, EverAccepted;
    EmptyIsConsistent();
    RunKeepsInvariant(cfg, START, moves);
    KeptUntilAcknowledged(cfg, s, after, id);
  }

  lemma HandUntouched(cfg: Config, s: System, m: Move)
    requires m.Elsewhere? && m.step.op.DoEnqueue?
    ensures Next(cfg, s, m).dispatcher == s.dispatcher
  {
    hide R.Apply;
  }

  // A dispatch that nothing interrupts

  /** The moves of one dispatch in their order; those that come after it has ended change nothing. */
  function Dispatching(b: Binding, now: Timestamp, call: Call): seq<Move> {
    [ClearPause(b, now), ReconcileNow(call.reconcileAt), Pick, Mark(call.settleAt), Answer(call.response), Settle(call.settleAt)]
  }

  lemma OneMore(cfg: Config, s: System, moves: seq<Move>, m: Move)
    ensures Run(cfg, s, moves + [m]) == Next(cfg, Run(cfg, s, moves), m)
  {
    hide Next;
    assert (moves + [m])[..|moves|] == moves;
  }

  lemma SixMoves(cfg: Config, s: System, a: Move, b: Move, c: Move, d: Move, e: Move, f: Move)
    ensures Run(cfg, s, [a, b, c, d, e, f]) == Next(cfg, Next(cfg, Next(cfg, Next(cfg, Next(cfg, Next(cfg, s, a), b), c), d), e), f)
  {
    hide Next, Run;
    NoMove(cfg, s);
    OneMore(cfg, s, [], a);
    OneMore(cfg, s, [a], b);
    OneMore(cfg, s, [a, b], c);
    OneMore(cfg, s, [a, b, c], d);
    OneMore(cfg, s, [a, b, c, d], e);
    OneMore(cfg, s, [a, b, c, d, e], f);
    assert [] + [a] == [a] && [a] + [b] == [a, b] && [a, b] + [c] == [a, b, c] && [a, b, c] + [d] == [a, b, c, d];
    assert [a, b, c, d] + [e] == [a, b, c, d, e] && [a, b, c, d, e] + [f] == [a, b, c, d, e, f];
  }

  lemma NoMove(cfg: Config, s: System)
    ensures Run(cfg, s, []) == s
  {
  }

  /** Left alone, the moves make the dispatch. */
  lemma UninterruptedIsDispatch(cfg: Config, o: O.Outbox, b: Binding, now: Timestamp, call: Call)
    requires ClockFits(now, call.response)
    ensures Run(cfg, System(o, AtRest), Dispatching(b, now, call)) == System(DispatchOnce(cfg, o, b, now, call).outbox, AtRest)
  {
    hide Run, O.Reconcile, O.MarkInflight, O.ClearResolvedPause, DueIndex.NextDue, SettlingOp;
    var m := Dispatching(b, now, call);
    SixMoves(cfg, System(o, AtRest), m[0], m[1], m[2], m[3], m[4], m[5]);
    var s1 := Next(cfg, System(o, AtRest), m[0]);
    var s2 := Next(cfg, s1, m[1]);
    var s3 := Next(cfg, s2, m[2]);
    var s4 := Next(cfg, s3, m[3]);
    var s5 := Next(cfg, s4, m[4]);
  }
}

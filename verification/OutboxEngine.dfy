/** The outbox writer: a bounded stage filled by callers and emptied by one goroutine, until it is closed and drained. */
module OutboxEngine {
  import opened Common
  import opened OutboxTypes
  import O = Outbox
  import R = OutboxRuns
  import opened OutboxStore

  datatype EngineConfig = EngineConfig(stageMaxEvents: nat, stageMaxBytes: nat)

  datatype Item = Item(delivery: Delivery, enqueuedAt: Option<Timestamp>, nextAttemptAt: Option<Timestamp>, size: nat)

  datatype StageResult = StageResult(item: Item, reply: Reply)

  datatype StageError = StageFull | EngineClosed

  /** Where the writer goroutine is between two of its atomic steps. */
  datatype Writer =
    | Selecting
    | Holding(item: Item)
    | Stored(result: StageResult)
    | Released(result: StageResult)
    | Returned

  /** The engine, with the history its guarantees are about: what was accepted, received and done to the store. */
  datatype Engine = Engine(
    accepting: bool,
    closed: bool,
    stageBytes: int,
    stage: seq<Item>,
    writer: Writer,
    results: seq<StageResult>,
    outbox: O.Outbox,
    accepted: seq<Item>,
    received: seq<StageResult>,
    log: seq<R.Step>,
    sentOnClosed: bool)

  function Start(o: O.Outbox): Engine {
    Engine(true, false, 0, [], Selecting, [], o, [], [], [], false)
  }

  function EnqueueOf(item: Item): R.Op {
    R.DoEnqueue(item.delivery, item.enqueuedAt, item.nextAttemptAt)
  }

  // Steps

  function Accept(e: Engine, item: Item): Engine {
    e.(stage := e.stage + [item], stageBytes := e.stageBytes + item.size, accepted := e.accepted + [item],
       sentOnClosed := e.sentOnClosed || e.closed)
  }

  function Staged(c: EngineConfig, e: Engine, item: Item): (Engine, Option<StageError>) {
    if !e.accepting then (e, Some(EngineClosed))
    else if |e.stage| >= c.stageMaxEvents || e.stageBytes + item.size > c.stageMaxBytes then (e, Some(StageFull))
    else (Accept(e, item), None)
  }

  /** A delivery is staged exactly while the engine is open and both bounds of the stage allow it. */
  lemma StagesExactly(c: EngineConfig, e: Engine, item: Item)
    ensures var (e', r) := Staged(c, e, item);
            && (r.None? <==> e.accepting && |e.stage| + 1 <= c.stageMaxEvents && e.stageBytes + item.size <= c.stageMaxBytes)
            && (r == Some(EngineClosed) <==> !e.accepting)
            && (r.None? ==> e'.stage == e.stage + [item] && e'.stageBytes == e.stageBytes + item.size)
            && (r.None? && e.closed ==> e'.sentOnClosed) && (r.None? && !e.closed ==> e'.sentOnClosed == e.sentOnClosed)
            && (r.Some? ==> e' == e)
  {
  }

  datatype Move =
    | Stage(item: Item)
    | Take
    | Store(now: Timestamp)
    | Release
    | Publish
    | Operate(step: R.Step)
    | Receive
    | Close
    | Return

  predicate Enabled(c: EngineConfig, e: Engine, m: Move) {
    match m
    case Take => e.writer.Selecting? && e.stage != []
    case Store(_) => e.writer.Holding?
    case Release => e.writer.Stored?
    case Publish => e.writer.Released? && |e.results| < c.stageMaxEvents
    case Operate(step) => e.writer.Selecting? && !step.op.DoEnqueue? && !step.op.Crash?
    case Receive => e.results != []
    case Return => e.writer.Selecting? && e.stage == [] && e.closed
    case _ => true
  }

  ghost function Next(c: EngineConfig, cfg: Config, e: Engine, m: Move): Engine
    requires Enabled(c, e, m)
  {
    match m
    case Stage(item) => Staged(c, e, item).0
    case Take => e.(writer := Holding(e.stage[0]), stage := e.stage[1..])
    case Store(now) =>
      var item := e.writer.item;
      var (o, reply) := O.Enqueue(cfg, e.outbox, item.delivery, item.enqueuedAt, item.nextAttemptAt, now);
      e.(outbox := o, log := e.log + [R.Step(EnqueueOf(item), now)], writer := Stored(StageResult(item, reply)))
    case Release => e.(stageBytes := e.stageBytes - e.writer.result.item.size, writer := Released(e.writer.result))
    case Publish => e.(results := e.results + [e.writer.result], writer := Selecting)
    case Operate(step) => e.(outbox := R.Next(cfg, e.outbox, step), log := e.log + [step])
    case Receive => e.(received := e.received + [e.results[0]], results := e.results[1..])
    case Close => e.(accepting := false, closed := true)
    case Return => e.(writer := Returned)
  }

  // What every step keeps

  function Bytes(items: seq<Item>): nat {
    if items == [] then 0 else items[0].size + Bytes(items[1..])
  }

  lemma {:induction false} BytesAppend(a: seq<Item>, x: Item)
    ensures Bytes(a + [x]) == Bytes(a) + x.size
  {
    if a != [] {
      assert (a + [x])[1..] == a[1..] + [x];
      BytesAppend(a[1..], x);
    }
  }

  /** The bytes still counted for an item that has left the stage. */
  function BytesInHand(w: Writer): nat {
    match w
    case Holding(item) => item.size
    case Stored(result) => result.item.size
    case _ => 0
  }

  /** The delivery stored but not yet reported. */
  function Unreported(w: Writer): seq<StageResult> {
    match w
    case Stored(result) => [result]
    case Released(result) => [result]
    case _ => []
  }

  function Items(results: seq<StageResult>): seq<Item> {
    seq(|results|, i requires 0 <= i < |results| => results[i].item)
  }

  function Done(e: Engine): seq<StageResult> {
    e.received + e.results + Unreported(e.writer)
  }

  function Held(w: Writer): seq<Item> {
    if w.Holding? then [w.item] else []
  }

  /** The deliveries the store was asked to enqueue, in order. */
  function Enqueues(log: seq<R.Step>): seq<R.Op> {
    if log == [] then [] else
      var last := log[|log| - 1];
      Enqueues(log[..|log| - 1]) + if last.op.DoEnqueue? then [last.op] else []
  }

  function Ops(items: seq<Item>): seq<R.Op> {
    seq(|items|, i requires 0 <= i < |items| => EnqueueOf(items[i]))
  }

  predicate Accounted(c: EngineConfig, e: Engine) {
    && e.stageBytes == Bytes(e.stage) + BytesInHand(e.writer) <= c.stageMaxBytes
    && |e.stage| <= c.stageMaxEvents && |e.results| <= c.stageMaxEvents
    && (e.closed <==> !e.accepting) && !e.sentOnClosed
    && (e.writer.Returned? ==> e.closed && e.stage == [])
  }

  /** Everything accepted is reported, being stored, in hand or still staged, in the order of acceptance. */
  predicate Ordered(e: Engine) {
    && e.accepted == Items(Done(e)) + Held(e.writer) + e.stage
    && Enqueues(e.log) == Ops(Items(Done(e)))
  }

  ghost predicate Replayed(cfg: Config, start: O.Outbox, e: Engine) {
    e.outbox == R.Run(cfg, start, e.log)
  }

  ghost predicate Inv(c: EngineConfig, cfg: Config, start: O.Outbox, e: Engine) {
    Accounted(c, e) && Ordered(e) && Replayed(cfg, start, e)
  }

  lemma AccountedStep(c: EngineConfig, cfg: Config, e: Engine, m: Move)
    requires Accounted(c, e) && Enabled(c, e, m)
    ensures Accounted(c, Next(c, cfg, e, m))
  {
    if m.Stage? {
      BytesAppend(e.stage, m.item);
    }
  }

  lemma EnqueuesAppend(log: seq<R.Step>, s: R.Step)
    ensures Enqueues(log + [s]) == Enqueues(log) + if s.op.DoEnqueue? then [s.op] else []
  {
    assert (log + [s])[..|log|] == log;
  }

  lemma ItemsAppend(a: seq<StageResult>, r: StageResult)
    ensures Items(a + [r]) == Items(a) + [r.item] && Ops(Items(a + [r])) == Ops(Items(a)) + [EnqueueOf(r.item)]
  {
  }

  lemma StoreOrdered(e: Engine, e': Engine, r: StageResult, s: R.Step)
    requires Ordered(e) && e.writer == Holding(r.item) && e'.writer == Stored(r) && s.op == EnqueueOf(r.item)
    requires e'.accepted == e.accepted && e'.stage == e.stage && e'.received == e.received && e'.results == e.results
    requires e'.log == e.log + [s]
    ensures Ordered(e')
  {
    EnqueuesAppend(e.log, s);
    assert Done(e') == Done(e) + [r];
    ItemsAppend(Done(e), r);
    hide Done, Items, Ops, Enqueues;
  }

  lemma ResultsMove(e: Engine, e': Engine)
    requires e.writer == e'.writer && e.results != []
    requires e'.received == e.received + [e.results[0]] && e'.results == e.results[1..]
    ensures Done(e') == Done(e)
  {
  }

  lemma OrderedStep(c: EngineConfig, cfg: Config, e: Engine, m: Move)
    requires Ordered(e) && Enabled(c, e, m)
    ensures Ordered(Next(c, cfg, e, m))
  {
    hide O.Enqueue, R.Next, Ordered, Items, Ops, Enqueues;
    var e' := Next(c, cfg, e, m);
    match m
    case Store(now) => StoreOrdered(e, e', e'.writer.result, R.Step(EnqueueOf(e.writer.item), now));
    case Operate(step) =>
      EnqueuesAppend(e.log, step);
      assert Enqueues(e'.log) == Enqueues(e.log);
      Beside(e, e', []);
    case Stage(item) =>
      Beside(e, e', if e' == e then [] else [item]);
    case Receive =>
      ResultsMove(e, e');
      Beside(e, e', []);
    case _ =>
      assert Done(e') == Done(e);
      Beside(e, e', []);
  }

  /** Nothing is stored or reported: only the stage or the place of results changes. */
  lemma Beside(e: Engine, e': Engine, more: seq<Item>)
    requires Ordered(e) && Done(e') == Done(e) && Enqueues(e'.log) == Enqueues(e.log)
    requires e'.accepted == e.accepted + more && Held(e'.writer) + e'.stage == Held(e.writer) + e.stage + more
    ensures Ordered(e')
  {
    hide Done, Items, Ops, Enqueues;
    assert e'.accepted == Items(Done(e)) + (Held(e.writer) + e.stage + more);
  }

  lemma ReplayedStep(c: EngineConfig, cfg: Config, start: O.Outbox, e: Engine, m: Move)
    requires Replayed(cfg, start, e) && Enabled(c, e, m)
    ensures Replayed(cfg, start, Next(c, cfg, e, m))
  {
    hide O.Enqueue;
    var log' := Next(c, cfg, e, m).log;
    if log' != e.log {
      assert log'[..|log'| - 1] == e.log;
    }
  }

  ghost predicate IsRun(c: EngineConfig, cfg: Config, e: Engine, moves: seq<Move>, t: Engine)
    decreases |moves|
  {
    if moves == [] then e == t else
      Enabled(c, e, moves[0]) && IsRun(c, cfg, Next(c, cfg, e, moves[0]), moves[1..], t)
  }

  /** Under every interleaving of callers, writer and close, the bytes, the order and the replay hold. */
  lemma {:induction false} RunKeeps(c: EngineConfig, cfg: Config, start: O.Outbox, e: Engine, moves: seq<Move>, t: Engine)
    requires Inv(c, cfg, start, e) && IsRun(c, cfg, e, moves, t)
    ensures Inv(c, cfg, start, t)
    decreases |moves|
  {
    hide Accounted, Ordered, Replayed, Enabled, Next;
    if moves != [] {
      AccountedStep(c, cfg, e, moves[0]);
      OrderedStep(c, cfg, e, moves[0]);
      ReplayedStep(c, cfg, start, e, moves[0]);
      RunKeeps(c, cfg, start, Next(c, cfg, e, moves[0]), moves[1..], t);
    }
  }

  /** When the writer has returned, each accepted delivery was enqueued once and reported once, in order. */
  lemma ClosedMeansDrained(c: EngineConfig, cfg: Config, start: O.Outbox, moves: seq<Move>, t: Engine)
    requires IsRun(c, cfg, Start(start), moves, t) && t.writer.Returned?
    ensures t.closed && !t.sentOnClosed && t.stageBytes == 0
    ensures Items(t.received + t.results) == t.accepted
    ensures Enqueues(t.log) == Ops(t.accepted)
    ensures t.outbox == R.Run(cfg, start, t.log)
  {
    hide Next, Enabled;
    RunKeeps(c, cfg, start, Start(start), moves, t);
    assert Done(t) == t.received + t.results;
  }

  // Draining

  function WorkLeft(e: Engine): nat {
    4 * |e.stage| + match e.writer
                    case Selecting => 1
                    case Holding(_) => 4
                    case Stored(_) => 3
                    case Released(_) => 2
                    case Returned => 0
  }

  predicate WriterMove(m: Move) {
    m.Take? || m.Store? || m.Release? || m.Publish? || m.Return?
  }

  /** The move of the writer that is open when results are being received. */
  function WriterNext(e: Engine, now: Timestamp): Move {
    match e.writer
    case Selecting => if e.stage == [] then Return else Take
    case Holding(_) => Store(now)
    case Stored(_) => Release
    case Released(_) => Publish
    case Returned => Return
  }

  /** A closed engine always has a writer move to make until it returns, and no move other than the writer's adds work. */
  lemma CloseTerminates(c: EngineConfig, cfg: Config, e: Engine, now: Timestamp, m: Move)
    requires Accounted(c, e) && e.closed
    ensures !e.writer.Returned? && |e.results| < c.stageMaxEvents ==> Enabled(c, e, WriterNext(e, now)) && WriterMove(WriterNext(e, now))
    ensures Enabled(c, e, m) && WriterMove(m) ==> WorkLeft(Next(c, cfg, e, m)) < WorkLeft(e)
    ensures Enabled(c, e, m) && !WriterMove(m) ==> WorkLeft(Next(c, cfg, e, m)) == WorkLeft(e)
  {
    hide O.Enqueue, R.Next;
  }

  function WriterMoves(moves: seq<Move>): nat {
    if moves == [] then 0 else (if WriterMove(moves[0]) then 1 else 0) + WriterMoves(moves[1..])
  }

  /** However it goes on after Close, the writer makes at most the moves it had left to make, and they lead to its return. */
  lemma {:induction false} ClosedRunEnds(c: EngineConfig, cfg: Config, e: Engine, moves: seq<Move>, t: Engine)
    requires Accounted(c, e) && e.closed && IsRun(c, cfg, e, moves, t)
    ensures WriterMoves(moves) + WorkLeft(t) <= WorkLeft(e)
    ensures t.closed && Accounted(c, t) && (WorkLeft(t) == 0 <==> t.writer.Returned?)
    decreases |moves|
  {
    hide Next, Enabled;
    if moves == [] {
      WorkEnds(c, e);
    } else {
      var n := Next(c, cfg, e, moves[0]);
      AccountedStep(c, cfg, e, moves[0]);
      CloseTerminates(c, cfg, e, 0, moves[0]);
      StaysClosed(c, cfg, e, moves[0]);
      hide Accounted, WorkLeft;
      ClosedRunEnds(c, cfg, n, moves[1..], t);
    }
  }

  lemma WorkEnds(c: EngineConfig, e: Engine)
    requires Accounted(c, e)
    ensures WorkLeft(e) == 0 <==> e.writer.Returned?
  {
  }

  lemma StaysClosed(c: EngineConfig, cfg: Config, e: Engine, m: Move)
    requires Enabled(c, e, m) && e.closed
    ensures Next(c, cfg, e, m).closed
  {
    hide O.Enqueue, R.Next;
  }

  // The engine as an object

  class Writing {
    const cfg: EngineConfig
    const store: Store
    var accepting: bool
    var closed: bool
    var stageBytes: int
    var stage: seq<Item>
    var writer: Writer
    var results: seq<StageResult>
    ghost var accepted: seq<Item>
    ghost var received: seq<StageResult>
    ghost var log: seq<R.Step>
    ghost var sentOnClosed: bool

    constructor (store: Store, cfg: EngineConfig)
      ensures this.store == store && this.cfg == cfg && View() == Start(store.View())
    {
      this.store := store;
      this.cfg := cfg;
      accepting, closed, stageBytes, stage, writer, results := true, false, 0, [], Selecting, [];
      accepted, received, log, sentOnClosed := [], [], [], false;
    }

    ghost function View(): Engine
      reads this, store
    {
      Engine(accepting, closed, stageBytes, stage, writer, results, store.View(), accepted, received, log, sentOnClosed)
    }

    method TryStage(delivery: Delivery, enqueuedAt: Option<Timestamp>, nextAttemptAt: Option<Timestamp>) returns (r: Option<StageError>)
      requires Accounted(cfg, View())
      modifies this
      ensures (View(), r) == Staged(cfg, old(View()), Item(delivery, enqueuedAt, nextAttemptAt, store.cfg.size(delivery)))
    {
      hide Store.View;
      var item := Item(delivery, enqueuedAt, nextAttemptAt, store.cfg.size(delivery));
      if !accepting {
        return Some(EngineClosed);
      }
      if |stage| >= cfg.stageMaxEvents || stageBytes + item.size > cfg.stageMaxBytes {
        return Some(StageFull);
      }
      sentOnClosed := sentOnClosed || closed;
      stage := stage + [item];
      stageBytes := stageBytes + item.size;
      accepted := accepted + [item];
      r := None;
    }

    method Close()
      requires Accounted(cfg, View())
      modifies this
      ensures View() == Next(cfg, store.cfg, old(View()), Move.Close)
    {
      if !closed {
        accepting := false;
        closed := true;
      }
    }

    method TakeStaged()
      requires Enabled(cfg, View(), Take)
      modifies this
      ensures View() == Next(cfg, store.cfg, old(View()), Take)
    {
      hide Store.View;
      writer, stage := Holding(stage[0]), stage[1..];
    }

    method StoreHeld(now: Timestamp)
      requires store.Valid() && Enabled(cfg, View(), Move.Store(now))
      modifies this, store
      ensures store.Valid() && View() == Next(cfg, store.cfg, old(View()), Move.Store(now))
    {
      hide Store.Valid, Store.View, O.Enqueue;
      var item := writer.item;
      var reply := store.Enqueue(item.delivery, item.enqueuedAt, item.nextAttemptAt, now);
      log := log + [R.Step(EnqueueOf(item), now)];
      writer := Stored(StageResult(item, reply));
    }

    method ReleaseBytes()
      requires Enabled(cfg, View(), Release)
      modifies this
      ensures View() == Next(cfg, store.cfg, old(View()), Release)
    {
      hide Store.View;
      stageBytes := stageBytes - writer.result.item.size;
      writer := Released(writer.result);
    }

    method PublishResult()
      requires Enabled(cfg, View(), Publish)
      modifies this
      ensures View() == Next(cfg, store.cfg, old(View()), Publish)
    {
      hide Store.View;
      results := results + [writer.result];
      writer := Selecting;
    }

    /** One round of the writer for one staged delivery, with nobody else in between. */
    method Drain(now: Timestamp)
      requires store.Valid() && Enabled(cfg, View(), Take) && |results| < cfg.stageMaxEvents
      modifies this, store
      ensures store.Valid()
      ensures IsRun(cfg, store.cfg, old(View()), [Take, Move.Store(now), Release, Publish], View())
    {
      hide Store.Valid, Store.View, IsRun, O.Enqueue;
      ghost var e0 := View();
      TakeStaged();
      ghost var e1 := View();
      StoreHeld(now);
      ghost var e2 := View();
      ReleaseBytes();
      ghost var e3 := View();
      PublishResult();
      FourMoves(cfg, store.cfg, e0, e1, e2, e3, View(), now);
    }

    static lemma FourMoves(c: EngineConfig, cfg: Config, e0: Engine, e1: Engine, e2: Engine, e3: Engine, e4: Engine, now: Timestamp)
      requires Enabled(c, e0, Take) && e1 == Next(c, cfg, e0, Take)
      requires Enabled(c, e1, Move.Store(now)) && e2 == Next(c, cfg, e1, Move.Store(now))
      requires Enabled(c, e2, Release) && e3 == Next(c, cfg, e2, Release)
      requires Enabled(c, e3, Publish) && e4 == Next(c, cfg, e3, Publish)
      ensures IsRun(c, cfg, e0, [Take, Move.Store(now), Release, Publish], e4)
    {
      hide Next, Enabled;
      assert IsRun(c, cfg, e4, [], e4);
      assert IsRun(c, cfg, e3, [Publish], e4);
      assert [Release, Publish][1..] == [Publish];
      assert IsRun(c, cfg, e2, [Release, Publish], e4);
      assert [Move.Store(now), Release, Publish][1..] == [Release, Publish];
      assert IsRun(c, cfg, e1, [Move.Store(now), Release, Publish], e4);
      assert [Take, Move.Store(now), Release, Publish][1..] == [Move.Store(now), Release, Publish];
    }
  }
}

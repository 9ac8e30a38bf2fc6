/** What every reachable state of the pipeline satisfies: no send on a closed channel, no
    second close, bounded queues, a running total that does not overflow. */
module PipelineSafety {
  import opened Domain
  import opened Pipeline

  /** A worker the closer still waits for. */
  function Alive(w: Worker): nat {
    if w.Returning? || w.Gone? then 0 else 1
  }

  predicate Drained(s: Stream) {
    !s.feed.batchesOpen && s.feed.batches == []
  }

  ghost predicate PageIs(c: Call, s: Stream, b: Batch) {
    0 <= b.index < SentCount(s.feed.producer) <= |c.pages| && b.cases == c.pages[b.index]
  }

  ghost predicate FrameIs(c: Call, s: Stream, f: Frame) {
    && 0 <= f.chunkIndex < SentCount(s.feed.producer) <= |c.pages|
    && FrameOf(f, Batch(f.chunkIndex, c.pages[f.chunkIndex]))
  }

  ghost predicate WorkerOk(c: Call, s: Stream, w: Worker) {
    match w
    case Idle => true
    case Busy(b) => PageIs(c, s, b)
    case Emitting(f) => FrameIs(c, s, f)
    case Leaving(err) => if err.Some? then s.group.cancelled else Drained(s)
    case Returning(err) => if err.Some? then s.group.cancelled else Drained(s)
    case Gone => s.group.firstError.Some? || Drained(s)
  }

  predicate Sending(p: Producer) {
    p.Scanning? || p.Offering? || p.Closing?
  }

  ghost predicate ProducerOk(c: Call, s: Stream) {
    && SentCount(s.feed.producer) <= |c.pages|
    && (s.feed.producer.Offering? ==> s.feed.producer.next < |c.pages|)
    && (s.feed.batchesOpen <==> Sending(s.feed.producer))
    && (s.feed.scanned || s.feed.cutShort ==> !s.feed.producer.Scanning? && !s.feed.producer.Offering?)
    && (s.feed.scanned ==> SentCount(s.feed.producer) == |c.pages|)
    && (s.feed.cutShort ==> SentCount(s.feed.producer) < |c.pages|)
    && ((s.feed.producer.Closing? || s.feed.producer.Ending?) && s.feed.producer.err.None? && !s.feed.cutShort ==>
          SentCount(s.feed.producer) == |c.pages|)
    && (s.feed.producer.Ended? && s.group.firstError.None? && !s.feed.cutShort ==>
          SentCount(s.feed.producer) == |c.pages|)
    && (s.feed.producer.Closing? || s.feed.producer.Ending? ==>
          s.feed.producer.err.Some? || s.feed.scanned || s.group.cancelled)
    && (s.feed.producer.Ended? ==> s.group.firstError.Some? || s.feed.scanned || s.group.cancelled)
  }

  ghost predicate AggregatorOk(c: Call, s: Stream) {
    match s.sink.aggregator
    case Receiving => true
    case Calling(f) => FrameIs(c, s, f)
    case Stopping(err) => err.Some? || (s.out.frames == [] && !s.out.framesOpen)
    case Stopped => s.group.firstError.Some? || (s.out.frames == [] && !s.out.framesOpen)
  }

  ghost predicate QueuesOk(c: Call, s: Stream) {
    && |s.feed.batches| <= 2 * c.workers && (forall b | b in s.feed.batches :: PageIs(c, s, b))
    && |s.out.frames| <= c.workers && (forall f | f in s.out.frames :: FrameIs(c, s, f))
    && (forall p | p in s.sink.delivered :: FrameIs(c, s, p.frame))
  }

  ghost predicate ClosersOk(c: Call, s: Stream) {
    && !s.panicked
    && |s.crew.workers| == c.workers && s.crew.waiting == Sum(s.crew.workers, Alive)
    && (s.out.framesOpen <==> !s.out.closerDone)
    && (s.out.closerDone ==> s.crew.waiting == 0)
    && (s.group.firstError.Some? ==> s.group.cancelled)
    && (s.group.cancelled ==> s.group.firstError.Some? || s.group.callerCancelled)
  }

  ghost predicate WorkersOk(c: Call, s: Stream) {
    forall i | 0 <= i < |s.crew.workers| :: WorkerOk(c, s, s.crew.workers[i])
  }

  ghost predicate StreamOk(c: Call, s: Stream) {
    ClosersOk(c, s) && ProducerOk(c, s) && QueuesOk(c, s) && AggregatorOk(c, s) && WorkersOk(c, s)
  }

  lemma {:induction false} StartOk(c: Call)
    ensures StreamOk(c, Start(c))
  {
    AllAlive(c.workers);
  }

  lemma {:induction false} AllAlive(n: nat)
    ensures Sum(seq(n, _ => Idle), Alive) == n
  {
    if n > 0 {
      AllAlive(n - 1);
      assert seq(n, _ => Idle)[..n - 1] == seq(n - 1, _ => Idle);
    }
  }

  /** Facts that other goroutines rely on only become truer. */
  ghost predicate Later(s: Stream, s': Stream) {
    && (s.group.cancelled ==> s'.group.cancelled) && (s.group.firstError.Some? ==> s'.group.firstError.Some?)
    && (Drained(s) ==> Drained(s'))
    && SentCount(s.feed.producer) <= SentCount(s'.feed.producer)
  }

  lemma {:induction false} WorkerLater(c: Call, s: Stream, s': Stream, w: Worker)
    requires WorkerOk(c, s, w) && Later(s, s') && SentCount(s'.feed.producer) <= |c.pages|
    ensures WorkerOk(c, s', w)
  {
  }

  lemma {:induction false} EmitterIsAlive(c: Call, s: Stream, i: nat)
    requires ClosersOk(c, s) && i < |s.crew.workers| && Alive(s.crew.workers[i]) == 1
    ensures s.crew.waiting >= 1 && s.out.framesOpen
  {
    SumAtLeast(s.crew.workers, i, Alive);
  }

  // ---- the producer's steps --------------------------------------------------------------

  lemma {:induction false} ProducerMoves(c: Call, s: Stream, p: ProducerMove)
    requires CanProduce(c, s, p) && ProducerOk(c, s)
    ensures Produced(c, s, p).feed.batches
      == s.feed.batches + if p == Send then [Batch(s.feed.producer.next, c.pages[s.feed.producer.next])] else []
    ensures Produced(c, s, p).out == s.out && Produced(c, s, p).sink == s.sink
    ensures SentCount(Produced(c, s, p).feed.producer) == SentCount(s.feed.producer) + if p == Send then 1 else 0
  {
  }

  lemma {:induction false} ProducerCounts(c: Call, s: Stream, p: ProducerMove)
    requires CanProduce(c, s, p) && ProducerOk(c, s) && ClosersOk(c, s)
    ensures ProducerOk(c, Produced(c, s, p)) && ClosersOk(c, Produced(c, s, p))
    ensures SentCount(Produced(c, s, p).feed.producer) <= |c.pages|
    ensures Later(s, Produced(c, s, p)) && Produced(c, s, p).crew.workers == s.crew.workers
  {
  }

  lemma {:induction false} WorkersLater(c: Call, s: Stream, s': Stream)
    requires WorkersOk(c, s) && Later(s, s') && ProducerOk(c, s') && s'.crew.workers == s.crew.workers
    ensures WorkersOk(c, s')
  {
  }

  lemma {:induction false} ProducerKeeps(c: Call, s: Stream, p: ProducerMove)
    requires StreamOk(c, s) && CanProduce(c, s, p)
    ensures StreamOk(c, Produced(c, s, p)) && Later(s, Produced(c, s, p))
  {
    var s' := Produced(c, s, p);
    ProducerMoves(c, s, p);
    ProducerCounts(c, s, p);
    ProducerRoom(c, s, p);
    hide Produced, ProducerOk, ClosersOk, CanProduce;
    WorkersLater(c, s, s');
    ProducerQueues(c, s, s');
  }

  lemma {:induction false} ProducerRoom(c: Call, s: Stream, p: ProducerMove)
    requires ProducerOk(c, s) && QueuesOk(c, s) && CanProduce(c, s, p)
    ensures |Produced(c, s, p).feed.batches| <= 2 * c.workers
    ensures forall b | b in Produced(c, s, p).feed.batches :: PageIs(c, Produced(c, s, p), b)
    ensures s.group.firstError.Some? ==> Produced(c, s, p).group.firstError.Some?
  {
    ProducerMoves(c, s, p);
  }

  lemma {:induction false} ProducerQueues(c: Call, s: Stream, s': Stream)
    requires QueuesOk(c, s) && AggregatorOk(c, s)
    requires s'.out.frames == s.out.frames && s'.sink == s.sink && s'.out.framesOpen == s.out.framesOpen
    requires SentCount(s.feed.producer) <= SentCount(s'.feed.producer) <= |c.pages|
    requires |s'.feed.batches| <= 2 * c.workers && forall b | b in s'.feed.batches :: PageIs(c, s', b)
    requires s.group.firstError.Some? ==> s'.group.firstError.Some?
    ensures QueuesOk(c, s') && AggregatorOk(c, s')
  {
  }

  // ---- a worker's steps ------------------------------------------------------------------

  lemma {:induction false} WorkerCounts(c: Call, s: Stream, i: nat, w: WorkerMove)
    requires ClosersOk(c, s) && CanHandle(c, s, i, w)
    ensures ClosersOk(c, Handled(c, s, i, w))
    ensures Handled(c, s, i, w).crew.workers == s.crew.workers[i := NextWorker(s, i, w)]
  {
    if Alive(s.crew.workers[i]) == 1 {
      EmitterIsAlive(c, s, i);
    }
    SumUpdate(s.crew.workers, i, NextWorker(s, i, w), Alive);
    hide Sum, FrameOf;
  }

  lemma {:induction false} WorkerIsLater(c: Call, s: Stream, i: nat, w: WorkerMove)
    requires CanHandle(c, s, i, w)
    ensures Later(s, Handled(c, s, i, w)) && Handled(c, s, i, w).feed.producer == s.feed.producer
  {
  }

  lemma {:induction false} WorkerMoves(c: Call, s: Stream, i: nat, w: WorkerMove)
    requires CanHandle(c, s, i, w) && (w == Emit ==> s.out.framesOpen)
    ensures Handled(c, s, i, w).feed.batches == if w == Take then s.feed.batches[1..] else s.feed.batches
    ensures Handled(c, s, i, w).out.frames
      == if w == Emit then s.out.frames + [s.crew.workers[i].frame] else s.out.frames
    ensures Handled(c, s, i, w).sink.aggregator == s.sink.aggregator
  {
  }

  lemma {:induction false} WorkerLeaves(c: Call, s: Stream, i: nat, w: WorkerMove)
    requires CanHandle(c, s, i, w)
    ensures Handled(c, s, i, w).sink.delivered == s.sink.delivered
    ensures Handled(c, s, i, w).feed.scanned == s.feed.scanned
    ensures Handled(c, s, i, w).feed.batchesOpen == s.feed.batchesOpen
    ensures Handled(c, s, i, w).out.framesOpen == s.out.framesOpen
  {
  }

  lemma {:induction false} WorkerQueues(c: Call, s: Stream, s': Stream, i: nat, w: WorkerMove)
    requires StreamOk(c, s) && CanHandle(c, s, i, w) && (w == Emit ==> s.out.framesOpen)
    requires s'.feed.batches == if w == Take then s.feed.batches[1..] else s.feed.batches
    requires s'.out.frames == if w == Emit then s.out.frames + [s.crew.workers[i].frame] else s.out.frames
    requires s'.sink.delivered == s.sink.delivered && s'.feed.producer == s.feed.producer
    ensures QueuesOk(c, s')
  {
    assert WorkerOk(c, s, s.crew.workers[i]);
    SamePages(c, s, s');
    hide FrameIs, PageIs;
    assert forall b | b in s'.feed.batches :: b in s.feed.batches;
  }

  lemma {:induction false} SamePages(c: Call, s: Stream, s': Stream)
    requires s'.feed.producer == s.feed.producer
    ensures forall f :: FrameIs(c, s', f) <==> FrameIs(c, s, f)
    ensures forall b :: PageIs(c, s', b) <==> PageIs(c, s, b)
  {
  }

  lemma {:induction false} NextWorkerOk(c: Call, s: Stream, i: nat, w: WorkerMove)
    requires StreamOk(c, s) && CanHandle(c, s, i, w)
    ensures WorkerOk(c, Handled(c, s, i, w), NextWorker(s, i, w))
  {
    WorkerIsLater(c, s, i, w);
    assert WorkerOk(c, s, s.crew.workers[i]);
    if w == Take {
      assert s.feed.batches[0] in s.feed.batches;
    }
    hide AggregatorOk, FrameOf, Sum;
  }

  lemma {:induction false} WorkerKeeps(c: Call, s: Stream, i: nat, w: WorkerMove)
    requires StreamOk(c, s) && CanHandle(c, s, i, w)
    ensures StreamOk(c, Handled(c, s, i, w)) && Later(s, Handled(c, s, i, w))
  {
    var s' := Handled(c, s, i, w);
    if w == Emit {
      EmitterIsAlive(c, s, i);
    }
    NextWorkerOk(c, s, i, w);
    hide Handled, NextWorker, FrameOf, FrameIs, Sum;
    WorkerCounts(c, s, i, w);
    WorkerIsLater(c, s, i, w);
    WorkerMoves(c, s, i, w);
    WorkerLeaves(c, s, i, w);
    WorkerQueues(c, s, s', i, w);
    forall j | 0 <= j < |s'.crew.workers| ensures WorkerOk(c, s', s'.crew.workers[j]) {
      if j != i {
        assert WorkerOk(c, s, s.crew.workers[j]);
        WorkerLater(c, s, s', s.crew.workers[j]);
      }
    }
    SamePages(c, s, s');
  }

  // ---- the aggregator's steps --------------------------------------------------------------

  lemma {:induction false} AggregatorCounts(c: Call, s: Stream, a: AggregatorMove, s': Stream)
    requires ClosersOk(c, s) && ProducerOk(c, s) && CanAggregate(c, s, a) && s' == Aggregated(c, s, a)
    ensures
      && ClosersOk(c, s') && ProducerOk(c, s') && Later(s, s')
      && s'.crew.workers == s.crew.workers && s'.feed.batches == s.feed.batches
      && s'.feed.producer == s.feed.producer && s'.out.framesOpen == s.out.framesOpen
  {
  }

  lemma {:induction false} AggregatorMoves(c: Call, s: Stream, a: AggregatorMove)
    requires CanAggregate(c, s, a)
    ensures Aggregated(c, s, a).feed.producer == s.feed.producer
    ensures Aggregated(c, s, a).feed.batches == s.feed.batches
    ensures Aggregated(c, s, a).out.framesOpen == s.out.framesOpen
    ensures Aggregated(c, s, a).out.frames == if a == Receive then s.out.frames[1..] else s.out.frames
  {
  }

  lemma {:induction false} AggregatorDelivers(c: Call, s: Stream, a: AggregatorMove)
    requires CanAggregate(c, s, a)
    ensures a != Callback(true) ==> Aggregated(c, s, a).sink.delivered == s.sink.delivered
    ensures a == Callback(true) ==>
      var f := s.sink.aggregator.frame;
      Aggregated(c, s, a).sink.delivered
        == s.sink.delivered + [Progress(f, Wrap32(s.sink.total + |f.success|), Wrap32(c.planned))]
  {
  }

  lemma {:induction false} AggregatorTurns(c: Call, s: Stream, a: AggregatorMove)
    requires CanAggregate(c, s, a)
    ensures Aggregated(c, s, a).sink.aggregator == match a
      case Receive => Calling(s.out.frames[0])
      case AggregatorDrained => Stopping(None)
      case Callback(ok) => if ok then Receiving else Stopping(Some(CallbackFailure))
      case AggregatorReturns => Stopped
    ensures a.AggregatorReturns? && s.sink.aggregator.err.Some? ==> Aggregated(c, s, a).group.firstError.Some?
  {
  }

  lemma {:induction false} AggregatorFrames(c: Call, s: Stream, a: AggregatorMove)
    requires QueuesOk(c, s) && AggregatorOk(c, s) && CanAggregate(c, s, a)
    ensures AggregatorOk(c, Aggregated(c, s, a)) && QueuesOk(c, Aggregated(c, s, a))
  {
    var s' := Aggregated(c, s, a);
    AggregatorMoves(c, s, a);
    AggregatorDelivers(c, s, a);
    AggregatorTurns(c, s, a);
    hide Aggregated;
    SamePages(c, s, s');
    hide FrameIs, PageIs;
    if a == Receive {
      assert s.out.frames[0] in s.out.frames && forall f | f in s.out.frames[1..] :: f in s.out.frames;
    }
  }

  lemma {:induction false} AggregatorKeeps(c: Call, s: Stream, a: AggregatorMove)
    requires StreamOk(c, s) && CanAggregate(c, s, a)
    ensures StreamOk(c, Aggregated(c, s, a)) && Later(s, Aggregated(c, s, a))
  {
    AggregatorCounts(c, s, a, Aggregated(c, s, a));
    AggregatorFrames(c, s, a);
    hide Aggregated, ProducerOk, ClosersOk, AggregatorOk, QueuesOk, WorkersOk;
    WorkersLater(c, s, Aggregated(c, s, a));
  }

  lemma {:induction false} StepKeepsOk(c: Call, s: Stream, step: Step)
    requires StreamOk(c, s) && Enabled(c, s, step)
    ensures StreamOk(c, Apply(c, s, step)) && Later(s, Apply(c, s, step))
  {
    match step
    case Produce(p) =>
      hide StreamOk, Later, Produced;
      ProducerKeeps(c, s, p);
    case Handle(i, w) =>
      hide StreamOk, Later, Handled;
      WorkerKeeps(c, s, i, w);
    case Aggregate(a) =>
      hide StreamOk, Later, Aggregated;
      AggregatorKeeps(c, s, a);
    case CloseFrames =>
      WorkersLater(c, s, Apply(c, s, step));
    case CallerCancels =>
      WorkersLater(c, s, Apply(c, s, step));
  }

  lemma {:induction false} RunKeepsOk(c: Call, s: Stream, steps: seq<Step>)
    requires StreamOk(c, s) && ValidRun(c, s, steps)
    ensures StreamOk(c, Run(c, s, steps)) && Later(s, Run(c, s, steps))
    decreases |steps|
  {
    hide StreamOk;
    if steps != [] {
      StepKeepsOk(c, s, steps[0]);
      RunKeepsOk(c, Apply(c, s, steps[0]), steps[1..]);
    }
  }

  /** With cancellation, a failing callback or a failing scan at any point: nothing is
      ever sent on a closed channel and no channel is closed twice (each of which would
      panic), and the wait group never goes below zero. */
  lemma {:induction false} NeverPanics(c: Call, steps: seq<Step>)
    requires ValidRun(c, Start(c), steps)
    ensures !Run(c, Start(c), steps).panicked
  {
    StartOk(c);
    RunKeepsOk(c, Start(c), steps);
  }

  // ---- batches in flight ---------------------------------------------------------------

  /** A batch that a worker is dispatching or reporting. */
  function Dispatching(w: Worker): nat {
    if w.Busy? || w.Emitting? then 1 else 0
  }

  function InFlight(s: Stream): nat {
    (if s.feed.producer.Offering? then 1 else 0) + |s.feed.batches| + Sum(s.crew.workers, Dispatching)
  }

  /** However large the catalogue, at most 3 * WorkerCount + 1 batches of cases are held
      at any time, and at most WorkerCount frames wait for the callback. */
  lemma {:induction false} InFlightBounded(c: Call, steps: seq<Step>)
    requires ValidRun(c, Start(c), steps)
    ensures InFlight(Run(c, Start(c), steps)) <= 3 * c.workers + 1
    ensures |Run(c, Start(c), steps).out.frames| <= c.workers
  {
    StartOk(c);
    RunKeepsOk(c, Start(c), steps);
    SumBounded(Run(c, Start(c), steps).crew.workers, Dispatching, 1);
  }

  /** What waits for a worker or is being dispatched is a page of the scan, whole, under its
      own index; what waits for the callback is the frame of such a page. */
  lemma {:induction false} ScannedPagesOnly(c: Call, steps: seq<Step>)
    requires ValidRun(c, Start(c), steps)
    ensures var s := Run(c, Start(c), steps);
      && (forall b | b in s.feed.batches :: 0 <= b.index < |c.pages| && b.cases == c.pages[b.index])
      && (forall w | w in s.crew.workers && w.Busy? ::
            0 <= w.batch.index < |c.pages| && w.batch.cases == c.pages[w.batch.index])
      && (forall f | f in s.out.frames ::
            0 <= f.chunkIndex < |c.pages| && f.chunkSize == |c.pages[f.chunkIndex]|)
  {
    StartOk(c);
    RunKeepsOk(c, Start(c), steps);
    var s := Run(c, Start(c), steps);
    forall w | w in s.crew.workers ensures WorkerOk(c, s, w) {
    }
  }

  // ---- deadlock freedom ------------------------------------------------------------------

  /** Some goroutine of the call can step by itself. */
  ghost predicate CanMove(c: Call, s: Stream) {
    exists step :: Enabled(c, s, step) && !step.CallerCancels?
  }

  lemma {:induction false} MoveProducer(c: Call, s: Stream)
    requires StreamOk(c, s) && !s.feed.producer.Ended?
    requires s.feed.producer.Offering? ==> s.group.cancelled || |s.feed.batches| < 2 * c.workers
    ensures CanMove(c, s)
  {
    match s.feed.producer
    case Scanning(next) =>
      if next < |c.pages| {
        assert Enabled(c, s, Produce(Page));
      } else {
        assert Enabled(c, s, Produce(ScanEnds));
      }
    case Offering(_) =>
      if s.group.cancelled {
        assert Enabled(c, s, Produce(AbandonOffer));
      } else {
        assert Enabled(c, s, Produce(Send));
      }
    case Closing(_, _) => assert Enabled(c, s, Produce(CloseBatches));
    case Ending(_, _) => assert Enabled(c, s, Produce(ProducerReturns));
  }

  lemma {:induction false} MoveWorker(c: Call, s: Stream, i: nat)
    requires StreamOk(c, s) && i < |s.crew.workers| && !s.crew.workers[i].Gone?
    requires s.crew.workers[i].Idle? ==> s.group.cancelled || s.feed.batches != [] || !s.feed.batchesOpen
    requires s.crew.workers[i].Emitting? ==> s.group.cancelled || |s.out.frames| < c.workers
    ensures CanMove(c, s)
  {
    match s.crew.workers[i]
    case Idle =>
      if s.group.cancelled {
        assert Enabled(c, s, Handle(i, WorkerCancelled));
      } else if s.feed.batches != [] {
        assert Enabled(c, s, Handle(i, Take));
      } else {
        assert Enabled(c, s, Handle(i, WorkerDrained));
      }
    case Busy(b) =>
      var f := FastPath.Frame(b.index, |b.cases|, [], [], true);
      assert Enabled(c, s, Handle(i, Work(f)));
    case Emitting(_) =>
      if s.group.cancelled {
        assert Enabled(c, s, Handle(i, EmitCancelled));
      } else {
        assert Enabled(c, s, Handle(i, Emit));
      }
    case Leaving(_) => assert Enabled(c, s, Handle(i, WorkerDone));
    case Returning(_) => assert Enabled(c, s, Handle(i, WorkerReturns));
  }

  lemma {:induction false} MoveAggregator(c: Call, s: Stream)
    requires StreamOk(c, s) && !s.sink.aggregator.Stopped?
    requires s.sink.aggregator.Receiving? ==> s.out.frames != [] || !s.out.framesOpen
    ensures CanMove(c, s)
  {
    match s.sink.aggregator
    case Receiving =>
      if s.out.frames != [] {
        assert Enabled(c, s, Aggregate(Receive));
      } else {
        assert Enabled(c, s, Aggregate(AggregatorDrained));
      }
    case Calling(_) => assert Enabled(c, s, Aggregate(Callback(true)));
    case Stopping(_) => assert Enabled(c, s, Aggregate(AggregatorReturns));
  }

  /** A full frame queue is always being emptied, or everything has been cancelled. */
  lemma {:induction false} MoveFrames(c: Call, s: Stream, i: nat)
    requires StreamOk(c, s) && i < |s.crew.workers| && s.crew.workers[i].Emitting? && !s.group.cancelled
      && |s.out.frames| == c.workers
    ensures CanMove(c, s)
  {
    EmitterIsAlive(c, s, i);
    MoveAggregator(c, s);
  }

  lemma {:induction false} MoveCloser(c: Call, s: Stream)
    requires StreamOk(c, s) && forall i | 0 <= i < |s.crew.workers| :: s.crew.workers[i].Gone?
    requires !s.out.closerDone
    ensures CanMove(c, s)
  {
    SumZero(s.crew.workers, Alive);
    assert Enabled(c, s, CloseFrames);
  }

  /** In every reachable state some goroutine can step unless all have returned. */
  lemma {:induction false} NoDeadlock(c: Call, steps: seq<Step>)
    requires c.workers > 0 && ValidRun(c, Start(c), steps)
    ensures var s := Run(c, Start(c), steps); Finished(s) || CanMove(c, s)
  {
    StartOk(c);
    RunKeepsOk(c, Start(c), steps);
    SomeMove(c, Run(c, Start(c), steps));
  }

  lemma {:induction false} SomeMove(c: Call, s: Stream)
    requires StreamOk(c, s) && c.workers > 0
    ensures Finished(s) || CanMove(c, s)
  {
    if exists i :: 0 <= i < |s.crew.workers| && !s.crew.workers[i].Gone? {
      var i :| 0 <= i < |s.crew.workers| && !s.crew.workers[i].Gone?;
      BusyWorkerMoves(c, s, i);
    } else {
      assert s.crew.workers[0].Gone? && WorkerOk(c, s, s.crew.workers[0]);
      if !s.feed.producer.Ended? {
        MoveProducer(c, s);
      } else if !s.out.closerDone {
        MoveCloser(c, s);
      } else if !s.sink.aggregator.Stopped? {
        MoveAggregator(c, s);
      }
    }
  }

  lemma {:induction false} BusyWorkerMoves(c: Call, s: Stream, i: nat)
    requires StreamOk(c, s) && c.workers > 0 && i < |s.crew.workers| && !s.crew.workers[i].Gone?
    ensures CanMove(c, s)
  {
    if s.crew.workers[i].Emitting? && !s.group.cancelled && |s.out.frames| == c.workers {
      MoveFrames(c, s, i);
    } else if s.crew.workers[i].Idle? && !s.group.cancelled && s.feed.batches == [] && s.feed.batchesOpen {
      MoveProducer(c, s);
    } else {
      MoveWorker(c, s, i);
    }
  }
}

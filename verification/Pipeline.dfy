/** The batch pipeline of dispatchStream: a producer, workers, a closer and an
    aggregator over two bounded channels with one shared cancellation, as a transition
    system. Every receive, send, close and return is one step; any goroutine may be
    scheduled next. */
module Pipeline {
  import opened Domain
  import opened Store
  import opened StoreEffects
  import opened BatchResult
  import FastPath

  type Frame = FastPath.Frame

  datatype Failure = ScanFailure | ContextFailure | CallbackFailure

  datatype Batch = Batch(index: int, cases: seq<Case>)

  /** Where the producer is: its callback offers page after page; then the deferred
      close, then the return to the group. */
  datatype Producer =
    | Scanning(next: nat)
    | Offering(next: nat)
    | Closing(sent: nat, err: Option<Failure>)
    | Ending(sent: nat, err: Option<Failure>)
    | Ended(sent: nat)

  /** A worker: at its select, dispatching a batch, sending its frame, about to run the
      deferred Done, returning to the group. */
  datatype Worker =
    | Idle
    | Busy(batch: Batch)
    | Emitting(frame: Frame)
    | Leaving(err: Option<Failure>)
    | Returning(err: Option<Failure>)
    | Gone

  datatype Aggregator =
    | Receiving
    | Calling(frame: Frame)
    | Stopping(err: Option<Failure>)
    | Stopped

  /** A frame as the callback gets it. */
  datatype Progress = Progress(frame: Frame, totalDispatched: int, totalPlanned: int)

  /** `scanned` and `cutShort` observe how the producer's callback ended: it saw the end of
      the scan, or it stopped at a cancellation with a page still to send. */
  datatype Feed = Feed(producer: Producer, batches: seq<Batch>, batchesOpen: bool, scanned: bool, cutShort: bool)
  datatype Crew = Crew(workers: seq<Worker>, waiting: int)
  datatype Out = Out(frames: seq<Frame>, framesOpen: bool, closerDone: bool)
  datatype Sink = Sink(aggregator: Aggregator, total: int, delivered: seq<Progress>)
  datatype Group = Group(cancelled: bool, callerCancelled: bool, firstError: Option<Failure>)

  /** `dropped` observes the chunks whose frame was made but never called back. */
  datatype Stream = Stream(
    feed: Feed, crew: Crew, out: Out, sink: Sink, group: Group, dropped: seq<int>, panicked: bool)

  /** One call: the number of workers, the pages that the scan yields, and the count that
      was planned. */
  datatype Call = Call(workers: nat, pages: seq<seq<Case>>, planned: int)

  datatype ProducerMove =
    | Page | ScanEnds | ScanFails | ScanInterrupted
    | Send | AbandonOffer | CloseBatches | ProducerReturns

  datatype WorkerMove =
    | Take | WorkerCancelled | WorkerDrained
    | Work(frame: Frame) | Emit | EmitCancelled
    | WorkerDone | WorkerReturns

  datatype AggregatorMove = Receive | AggregatorDrained | Callback(ok: bool) | AggregatorReturns

  datatype Step =
    | Produce(p: ProducerMove)
    | Handle(i: nat, w: WorkerMove)
    | CloseFrames
    | Aggregate(a: AggregatorMove)
    | CallerCancels

  function Wrap32(x: int): int {
    (x + 0x8000_0000) % 0x1_0000_0000 - 0x8000_0000
  }

  function Start(c: Call): Stream {
    Stream(
      Feed(Scanning(0), [], true, false, false), Crew(seq(c.workers, _ => Idle), c.workers), Out([], true, false),
      Sink(Receiving, 0, []), Group(false, false, None), [], false)
  }

  /** The result of a dispatched chunk: every id once, or none and an error. */
  ghost predicate FrameOf(f: Frame, b: Batch) {
    && f.chunkIndex == b.index && f.chunkSize == |b.cases|
    && (|f.success| + |f.failed| == |b.cases| || (f.success == [] && f.failed == [] && f.chunkError))
  }

  /** What a worker makes of a batch is such a frame, whatever the store and the executor
      did: phase one failed, the version differed, or some ids were (not) acknowledged. */
  lemma {:induction false} DispatchGivesFrame(
    t: Tables, b: Batch, requestId: string, outcome: Option<Persisted>, version: string,
    raw: RunResult, writeBackFailed: bool)
    requires FastPath.DistinctCases(b.cases)
    requires outcome.Some? ==> ReadBack(t, outcome.value, requestId, b.cases)
    ensures FrameOf(FastPath.ChunkFrame(b.index, b.cases, outcome, version, raw, writeBackFailed), b)
  {
    FastPath.FrameConservesIds(t, b.index, b.cases, requestId, outcome, version, raw, writeBackFailed);
  }

  /** A goroutine of the group returns: its first error cancels everything. */
  function Report(g: Group, err: Option<Failure>): Group {
    if err.None? then g
    else g.(firstError := if g.firstError.None? then err else g.firstError, cancelled := true)
  }

  predicate CanProduce(c: Call, s: Stream, p: ProducerMove) {
    match p
    case Page => s.feed.producer.Scanning? && s.feed.producer.next < |c.pages|
    case ScanEnds => s.feed.producer.Scanning? && s.feed.producer.next == |c.pages|
    case ScanFails => s.feed.producer.Scanning?
    case ScanInterrupted => s.feed.producer.Scanning? && s.group.cancelled
    case Send => s.feed.producer.Offering? && (|s.feed.batches| < 2 * c.workers || !s.feed.batchesOpen)
    case AbandonOffer => s.feed.producer.Offering? && s.group.cancelled
    case CloseBatches => s.feed.producer.Closing?
    case ProducerReturns => s.feed.producer.Ending?
  }

  /** A context error of the scan is not an error of the producer. */
  function Produced(c: Call, s: Stream, p: ProducerMove): Stream
    requires CanProduce(c, s, p)
  {
    match p
    case Page => s.(feed := s.feed.(producer := Offering(s.feed.producer.next)))
    case ScanEnds => s.(feed := s.feed.(producer := Closing(s.feed.producer.next, None), scanned := true))
    case ScanFails => s.(feed := s.feed.(producer := Closing(s.feed.producer.next, Some(ScanFailure))))
    case ScanInterrupted =>
      var k := s.feed.producer.next;
      s.(feed := s.feed.(producer := Closing(k, None), cutShort := k < |c.pages|))
    case Send =>
      var k := s.feed.producer.next;
      if !s.feed.batchesOpen then s.(panicked := true)
      else
        var batch := Batch(k, if k < |c.pages| then c.pages[k] else []);
        s.(feed := s.feed.(producer := Scanning(k + 1), batches := s.feed.batches + [batch]))
    case AbandonOffer => s.(feed := s.feed.(producer := Closing(s.feed.producer.next, None), cutShort := true))
    case CloseBatches =>
      if !s.feed.batchesOpen then s.(panicked := true)
      else s.(feed := s.feed.(producer := Ending(s.feed.producer.sent, s.feed.producer.err), batchesOpen := false))
    case ProducerReturns =>
      s.(feed := s.feed.(producer := Ended(s.feed.producer.sent)), group := Report(s.group, s.feed.producer.err))
  }

  ghost predicate CanHandle(c: Call, s: Stream, i: nat, w: WorkerMove) {
    && i < |s.crew.workers|
    && match w
       case Take => s.crew.workers[i].Idle? && s.feed.batches != []
       case WorkerCancelled => s.crew.workers[i].Idle? && s.group.cancelled
       case WorkerDrained => s.crew.workers[i].Idle? && s.feed.batches == [] && !s.feed.batchesOpen
       case Work(frame) => s.crew.workers[i].Busy? && FrameOf(frame, s.crew.workers[i].batch)
       case Emit => s.crew.workers[i].Emitting? && (|s.out.frames| < c.workers || !s.out.framesOpen)
       case EmitCancelled => s.crew.workers[i].Emitting? && s.group.cancelled
       case WorkerDone => s.crew.workers[i].Leaving?
       case WorkerReturns => s.crew.workers[i].Returning?
  }

  /** What the worker itself becomes. */
  function NextWorker(s: Stream, i: nat, w: WorkerMove): Worker
    requires i < |s.crew.workers|
  {
    match w
    case Take => if s.feed.batches != [] then Busy(s.feed.batches[0]) else Idle
    case WorkerCancelled => Leaving(Some(ContextFailure))
    case WorkerDrained => Leaving(None)
    case Work(frame) => Emitting(frame)
    case Emit => Idle
    case EmitCancelled => Leaving(Some(ContextFailure))
    case WorkerDone => if s.crew.workers[i].Leaving? then Returning(s.crew.workers[i].err) else Gone
    case WorkerReturns => Gone
  }

  function Handled(c: Call, s: Stream, i: nat, w: WorkerMove): Stream
    requires CanHandle(c, s, i, w)
  {
    var me := s.crew.workers[i];
    var crew := s.crew.(workers := s.crew.workers[i := NextWorker(s, i, w)]);
    match w
    case Take => s.(crew := crew, feed := s.feed.(batches := s.feed.batches[1..]))
    case Emit =>
      if !s.out.framesOpen then s.(panicked := true)
      else s.(crew := crew, out := s.out.(frames := s.out.frames + [me.frame]))
    case EmitCancelled => s.(crew := crew, dropped := s.dropped + [me.frame.chunkIndex])
    case WorkerDone =>
      if s.crew.waiting <= 0 then s.(panicked := true) else s.(crew := crew.(waiting := s.crew.waiting - 1))
    case WorkerReturns => s.(crew := crew, group := Report(s.group, me.err))
    case _ => s.(crew := crew)
  }

  predicate CanAggregate(c: Call, s: Stream, a: AggregatorMove) {
    match a
    case Receive => s.sink.aggregator.Receiving? && s.out.frames != []
    case AggregatorDrained => s.sink.aggregator.Receiving? && s.out.frames == [] && !s.out.framesOpen
    case Callback(_) => s.sink.aggregator.Calling?
    case AggregatorReturns => s.sink.aggregator.Stopping?
  }

  function Aggregated(c: Call, s: Stream, a: AggregatorMove): Stream
    requires CanAggregate(c, s, a)
  {
    match a
    case Receive =>
      s.(sink := s.sink.(aggregator := Calling(s.out.frames[0])), out := s.out.(frames := s.out.frames[1..]))
    case AggregatorDrained => s.(sink := s.sink.(aggregator := Stopping(None)))
    case Callback(ok) =>
      var f := s.sink.aggregator.frame;
      var total := Wrap32(s.sink.total + |f.success|);
      if ok then s.(sink := Sink(Receiving, total, s.sink.delivered + [Progress(f, total, Wrap32(c.planned))]))
      else
        s.(sink := Sink(Stopping(Some(CallbackFailure)), total, s.sink.delivered),
           dropped := s.dropped + [f.chunkIndex])
    case AggregatorReturns =>
      s.(sink := s.sink.(aggregator := Stopped), group := Report(s.group, s.sink.aggregator.err))
  }

  ghost predicate Enabled(c: Call, s: Stream, step: Step) {
    && !s.panicked
    && match step
       case Produce(p) => CanProduce(c, s, p)
       case Handle(i, w) => CanHandle(c, s, i, w)
       case CloseFrames => !s.out.closerDone && s.crew.waiting == 0
       case Aggregate(a) => CanAggregate(c, s, a)
       case CallerCancels => !s.group.callerCancelled
  }

  function Apply(c: Call, s: Stream, step: Step): Stream
    requires Enabled(c, s, step)
  {
    match step
    case Produce(p) => Produced(c, s, p)
    case Handle(i, w) => Handled(c, s, i, w)
    case CloseFrames =>
      if !s.out.framesOpen then s.(panicked := true)
      else s.(out := s.out.(framesOpen := false, closerDone := true))
    case Aggregate(a) => Aggregated(c, s, a)
    case CallerCancels => s.(group := s.group.(callerCancelled := true, cancelled := true))
  }

  ghost predicate ValidRun(c: Call, s: Stream, steps: seq<Step>)
    decreases |steps|
  {
    steps == [] || (Enabled(c, s, steps[0]) && ValidRun(c, Apply(c, s, steps[0]), steps[1..]))
  }

  ghost function Run(c: Call, s: Stream, steps: seq<Step>): Stream
    requires ValidRun(c, s, steps)
    decreases |steps|
  {
    if steps == [] then s else Run(c, Apply(c, s, steps[0]), steps[1..])
  }

  /** Every goroutine of the group has returned, so g.Wait returns firstError. */
  predicate Finished(s: Stream) {
    && s.feed.producer.Ended? && s.out.closerDone && s.sink.aggregator.Stopped?
    && forall i | 0 <= i < |s.crew.workers| :: s.crew.workers[i].Gone?
  }

  /** How many batches the producer has sent. */
  function SentCount(p: Producer): nat {
    match p
    case Scanning(next) => next
    case Offering(next) => next
    case Closing(sent, _) => sent
    case Ending(sent, _) => sent
    case Ended(sent) => sent
  }

  // ---- sums over sequences ------------------------------------------------------------

  function Sum<T>(xs: seq<T>, f: T -> nat): nat {
    if xs == [] then 0 else Sum(xs[..|xs| - 1], f) + f(xs[|xs| - 1])
  }

  lemma {:induction false} SumAppend<T>(xs: seq<T>, x: T, f: T -> nat)
    ensures Sum(xs + [x], f) == Sum(xs, f) + f(x)
  {
  }

  lemma {:induction false} SumTail<T>(xs: seq<T>, f: T -> nat)
    requires xs != []
    ensures Sum(xs, f) == f(xs[0]) + Sum(xs[1..], f)
  {
    var n := |xs| - 1;
    if n > 0 {
      SumTail(xs[..n], f);
      assert xs[1..][..n - 1] == xs[..n][1..];
    } else {
      assert xs[1..] == [];
    }
  }

  lemma {:induction false} SumUpdate<T>(xs: seq<T>, i: nat, x: T, f: T -> nat)
    requires i < |xs|
    ensures Sum(xs[i := x], f) + f(xs[i]) == Sum(xs, f) + f(x)
  {
    var n := |xs| - 1;
    if i < n {
      SumUpdate(xs[..n], i, x, f);
      assert xs[i := x][..n] == xs[..n][i := x];
    } else {
      assert xs[i := x][..n] == xs[..n];
    }
  }

  lemma {:induction false} SumAtLeast<T>(xs: seq<T>, i: nat, f: T -> nat)
    requires i < |xs|
    ensures f(xs[i]) <= Sum(xs, f)
  {
    if i < |xs| - 1 {
      SumAtLeast(xs[..|xs| - 1], i, f);
    }
  }

  lemma {:induction false} SumZero<T>(xs: seq<T>, f: T -> nat)
    requires forall x | x in xs :: f(x) == 0
    ensures Sum(xs, f) == 0
  {
    if xs != [] {
      SumZero(xs[..|xs| - 1], f);
    }
  }

  lemma {:induction false} SumBounded<T>(xs: seq<T>, f: T -> nat, bound: nat)
    requires forall x | x in xs :: f(x) <= bound
    ensures Sum(xs, f) <= |xs| * bound
  {
    if xs != [] {
      SumBounded(xs[..|xs| - 1], f, bound);
    }
  }
}

/** Where every batch of the pipeline ends: each goroutine step makes progress, no batch
    is lost or doubled, and what a nil return promises. */
module PipelineProgress {
  import opened Domain
  import opened Pipeline
  import opened PipelineSafety

  // ---- termination -----------------------------------------------------------------------

  function ProducerCost(c: Call, p: Producer): int {
    match p
    case Scanning(next) => 8 * (|c.pages| - next) + 4
    case Offering(next) => 8 * (|c.pages| - next) + 3
    case Closing(_, _) => 2
    case Ending(_, _) => 1
    case Ended(_) => 0
  }

  function WorkerCost(w: Worker): nat {
    match w
    case Idle => 3
    case Busy(_) => 7
    case Emitting(_) => 6
    case Leaving(_) => 2
    case Returning(_) => 1
    case Gone => 0
  }

  function AggregatorCost(a: Aggregator): nat {
    match a
    case Receiving => 2
    case Calling(_) => 3
    case Stopping(_) => 1
    case Stopped => 0
  }

  /** How many goroutine steps can still follow. */
  function Cost(c: Call, s: Stream): int {
    ProducerCost(c, s.feed.producer) + 5 * |s.feed.batches| + Sum(s.crew.workers, WorkerCost)
    + 2 * |s.out.frames| + (if s.out.closerDone then 0 else 1) + AggregatorCost(s.sink.aggregator)
  }

  lemma {:induction false} ProducerCostFalls(c: Call, s: Stream, p: ProducerMove)
    requires ProducerOk(c, s) && CanProduce(c, s, p)
    ensures 0 <= ProducerCost(c, Produced(c, s, p).feed.producer)
    ensures Cost(c, Produced(c, s, p)) < Cost(c, s)
  {
  }

  lemma {:induction false} WorkerCostFalls(c: Call, s: Stream, i: nat, w: WorkerMove)
    requires CanHandle(c, s, i, w) && !Handled(c, s, i, w).panicked
    ensures Cost(c, Handled(c, s, i, w)) < Cost(c, s)
  {
    SumUpdate(s.crew.workers, i, NextWorker(s, i, w), WorkerCost);
    hide Sum, FrameOf;
    match w
    case Take =>
    case Emit =>
    case _ =>
  }

  lemma {:induction false} CostFalls(c: Call, s: Stream, step: Step)
    requires StreamOk(c, s) && Enabled(c, s, step)
    ensures Cost(c, Apply(c, s, step)) <= Cost(c, s) - if step.CallerCancels? then 0 else 1
  {
    StepKeepsOk(c, s, step);
    match step
    case Produce(p) =>
      hide Cost, Produced;
      ProducerCostFalls(c, s, p);
    case Handle(i, w) =>
      hide Cost, Handled;
      WorkerCostFalls(c, s, i, w);
    case Aggregate(a) =>
      hide StreamOk;
    case _ =>
      hide StreamOk;
  }

  lemma {:induction false} CostNonNegative(c: Call, s: Stream)
    requires StreamOk(c, s)
    ensures Cost(c, s) >= 0
  {
  }

  function Moves(steps: seq<Step>): nat {
    if steps == [] then 0 else Moves(steps[1..]) + if steps[0].CallerCancels? then 0 else 1
  }

  lemma {:induction false} RunCosts(c: Call, s: Stream, steps: seq<Step>)
    requires StreamOk(c, s) && ValidRun(c, s, steps)
    ensures Moves(steps) + Cost(c, Run(c, s, steps)) <= Cost(c, s)
    decreases |steps|
  {
    hide Cost, StreamOk;
    if steps != [] {
      StepKeepsOk(c, s, steps[0]);
      CostFalls(c, s, steps[0]);
      RunCosts(c, Apply(c, s, steps[0]), steps[1..]);
    }
  }

  lemma {:induction false} AllIdle(n: nat)
    ensures Sum(seq(n, _ => Idle), WorkerCost) == 3 * n
  {
    if n > 0 {
      AllIdle(n - 1);
      assert seq(n, _ => Idle)[..n - 1] == seq(n - 1, _ => Idle);
    }
  }

  /** Every run is short: the goroutines of a call take at most this many steps in all,
      whatever the scheduler does. */
  lemma {:induction false} RunsEnd(c: Call, steps: seq<Step>)
    requires ValidRun(c, Start(c), steps)
    ensures Moves(steps) <= 8 * |c.pages| + 3 * c.workers + 7
  {
    StartOk(c);
    RunKeepsOk(c, Start(c), steps);
    RunCosts(c, Start(c), steps);
    CostNonNegative(c, Run(c, Start(c), steps));
    AllIdle(c.workers);
  }

  /** From every reachable state the call can be run to its end. */
  lemma {:induction false} CanFinish(c: Call, s: Stream) returns (more: seq<Step>)
    requires c.workers > 0 && StreamOk(c, s)
    ensures ValidRun(c, s, more) && Finished(Run(c, s, more))
    decreases Cost(c, s)
  {
    CostNonNegative(c, s);
    SomeMove(c, s);
    hide StreamOk, Cost;
    if Finished(s) {
      return [];
    }
    var step :| Enabled(c, s, step) && !step.CallerCancels?;
    CostFalls(c, s, step);
    StepKeepsOk(c, s, step);
    var rest := CanFinish(c, Apply(c, s, step));
    more := [step] + rest;
    assert more[1..] == rest;
  }

  // ---- conservation ------------------------------------------------------------------------

  function BatchWeight(g: int -> nat): Batch -> nat {
    (b: Batch) => g(b.index)
  }

  function FrameWeight(g: int -> nat): Frame -> nat {
    (f: Frame) => g(f.chunkIndex)
  }

  function ProgressWeight(g: int -> nat): Progress -> nat {
    (p: Progress) => g(p.frame.chunkIndex)
  }

  function WorkerWeight(g: int -> nat): Worker -> nat {
    (w: Worker) => if w.Busy? then g(w.batch.index) else if w.Emitting? then g(w.frame.chunkIndex) else 0
  }

  function CallingWeight(g: int -> nat, a: Aggregator): nat {
    if a.Calling? then g(a.frame.chunkIndex) else 0
  }

  /** The weight of all batches that have entered the batch channel, wherever they are:
      queued, with a worker, on their way to the callback, called back, or dropped. */
  function Load(s: Stream, g: int -> nat): nat {
    Sum(s.feed.batches, BatchWeight(g)) + Sum(s.crew.workers, WorkerWeight(g)) + Sum(s.out.frames, FrameWeight(g))
    + CallingWeight(g, s.sink.aggregator) + Sum(s.sink.delivered, ProgressWeight(g)) + Sum(s.dropped, g)
  }

  function Prefix(g: int -> nat, n: nat): nat {
    if n == 0 then 0 else Prefix(g, n - 1) + g(n - 1)
  }

  /** For every weight: the batches sent so far are all somewhere, each once. */
  ghost predicate Conserved(s: Stream, g: int -> nat) {
    Load(s, g) == Prefix(g, SentCount(s.feed.producer))
  }

  lemma {:induction false} ProducerConserves(c: Call, s: Stream, p: ProducerMove, g: int -> nat)
    requires ProducerOk(c, s) && CanProduce(c, s, p) && Conserved(s, g)
    ensures Conserved(Produced(c, s, p), g)
  {
  }

  lemma {:induction false} WorkerConserves(c: Call, s: Stream, i: nat, w: WorkerMove, g: int -> nat)
    requires CanHandle(c, s, i, w) && Conserved(s, g) && !Handled(c, s, i, w).panicked
    ensures Conserved(Handled(c, s, i, w), g)
  {
    SumUpdate(s.crew.workers, i, NextWorker(s, i, w), WorkerWeight(g));
    match w
    case Take =>
      SumTail(s.feed.batches, BatchWeight(g));
      hide Sum, FrameOf;
    case Emit =>
      SumAppend(s.out.frames, s.crew.workers[i].frame, FrameWeight(g));
      hide Sum, FrameOf;
    case EmitCancelled =>
      SumAppend(s.dropped, s.crew.workers[i].frame.chunkIndex, g);
      hide Sum, FrameOf;
    case _ =>
      hide Sum;
  }

  lemma {:induction false} AggregatorConserves(c: Call, s: Stream, a: AggregatorMove, g: int -> nat)
    requires CanAggregate(c, s, a) && Conserved(s, g)
    ensures Conserved(Aggregated(c, s, a), g)
  {
    match a
    case Receive =>
      SumTail(s.out.frames, FrameWeight(g));
    case Callback(ok) =>
      AggregatorDelivers(c, s, a);
      var f := s.sink.aggregator.frame;
      SumAppend(s.sink.delivered, Progress(f, Wrap32(s.sink.total + |f.success|), Wrap32(c.planned)),
        ProgressWeight(g));
      SumAppend(s.dropped, f.chunkIndex, g);
      hide Sum, Wrap32;
    case _ =>
  }

  lemma {:induction false} StepConserves(c: Call, s: Stream, step: Step, g: int -> nat)
    requires StreamOk(c, s) && Enabled(c, s, step) && Conserved(s, g)
    ensures Conserved(Apply(c, s, step), g)
  {
    StepKeepsOk(c, s, step);
    match step
    case Produce(p) =>
      hide Conserved, Produced;
      ProducerConserves(c, s, p, g);
    case Handle(i, w) =>
      hide Conserved, Handled;
      WorkerConserves(c, s, i, w, g);
    case Aggregate(a) =>
      hide Conserved, Aggregated, StreamOk;
      AggregatorConserves(c, s, a, g);
    case _ =>
      hide StreamOk;
  }

  lemma {:induction false} WorkersLoadNothing(n: nat, g: int -> nat)
    ensures Sum(seq(n, _ => Idle), WorkerWeight(g)) == 0
  {
    SumZero(seq(n, _ => Idle), WorkerWeight(g));
  }

  lemma {:induction false} RunConserves(c: Call, s: Stream, steps: seq<Step>, g: int -> nat)
    requires StreamOk(c, s) && Conserved(s, g) && ValidRun(c, s, steps)
    ensures Conserved(Run(c, s, steps), g)
    decreases |steps|
  {
    hide StreamOk, Conserved;
    if steps != [] {
      StepKeepsOk(c, s, steps[0]);
      StepConserves(c, s, steps[0], g);
      RunConserves(c, Apply(c, s, steps[0]), steps[1..], g);
    }
  }

  // ---- a nil return --------------------------------------------------------------------------

  /** Some goroutine has returned an error or is about to. */
  ghost predicate Failing(s: Stream) {
    || s.group.firstError.Some?
    || (s.sink.aggregator.Stopping? && s.sink.aggregator.err.Some?)
    || exists i :: 0 <= i < |s.crew.workers| && WithError(s.crew.workers[i])
  }

  predicate WithError(w: Worker) {
    (w.Leaving? || w.Returning?) && w.err.Some?
  }

  /** Nothing is dropped unless the call fails. */
  ghost predicate DropsOk(s: Stream) {
    s.dropped != [] ==> Failing(s)
  }

  lemma {:induction false} WorkerDrops(c: Call, s: Stream, i: nat, w: WorkerMove)
    requires CanHandle(c, s, i, w) && DropsOk(s) && !Handled(c, s, i, w).panicked
    ensures DropsOk(Handled(c, s, i, w))
  {
    var s' := Handled(c, s, i, w);
    assert s'.crew.workers == s.crew.workers[i := NextWorker(s, i, w)];
    if w == EmitCancelled {
      assert WithError(s'.crew.workers[i]);
    } else if s.dropped != [] && exists j :: 0 <= j < |s.crew.workers| && WithError(s.crew.workers[j]) {
      var j :| 0 <= j < |s.crew.workers| && WithError(s.crew.workers[j]);
      if w != WorkerReturns || j != i {
        assert WithError(s'.crew.workers[j]);
      }
    }
  }

  lemma {:induction false} StepDrops(c: Call, s: Stream, step: Step)
    requires StreamOk(c, s) && Enabled(c, s, step) && DropsOk(s)
    ensures DropsOk(Apply(c, s, step))
  {
    StepKeepsOk(c, s, step);
    match step
    case Produce(p) =>
      hide StreamOk;
    case Handle(i, w) =>
      hide DropsOk, Handled;
      WorkerDrops(c, s, i, w);
    case Aggregate(a) =>
      hide StreamOk, Wrap32;
    case _ =>
      hide StreamOk;
  }

  lemma {:induction false} RunDrops(c: Call, s: Stream, steps: seq<Step>)
    requires StreamOk(c, s) && DropsOk(s) && ValidRun(c, s, steps)
    ensures DropsOk(Run(c, s, steps))
    decreases |steps|
  {
    hide StreamOk, DropsOk;
    if steps != [] {
      StepKeepsOk(c, s, steps[0]);
      StepDrops(c, s, steps[0]);
      RunDrops(c, Apply(c, s, steps[0]), steps[1..]);
    }
  }

  /** When the call returns nil, the callback has seen exactly what was sent. */
  lemma {:induction false} NilLoads(c: Call, s: Stream, g: int -> nat)
    requires c.workers > 0 && StreamOk(c, s) && DropsOk(s) && Conserved(s, g)
    requires Finished(s) && s.group.firstError == None
    ensures Sum(s.sink.delivered, ProgressWeight(g)) == Prefix(g, SentCount(s.feed.producer))
  {
    assert s.crew.workers[0].Gone? && WorkerOk(c, s, s.crew.workers[0]);
    SumZero(s.crew.workers, WorkerWeight(g));
    assert s.dropped == [] && s.out.frames == [] && s.feed.batches == [];
  }

  /** How often the callback ran for a chunk index. */
  function TimesDelivered(delivered: seq<Progress>, index: int): nat {
    if delivered == [] then 0
    else
      TimesDelivered(delivered[..|delivered| - 1], index)
      + if delivered[|delivered| - 1].frame.chunkIndex == index then 1 else 0
  }

  function Indicator(index: int): int -> nat {
    (k: int) => if k == index then 1 else 0
  }

  lemma {:induction false} TimesIsSum(delivered: seq<Progress>, index: int)
    ensures Sum(delivered, ProgressWeight(Indicator(index))) == TimesDelivered(delivered, index)
  {
    if delivered != [] {
      TimesIsSum(delivered[..|delivered| - 1], index);
    }
  }

  lemma {:induction false} PrefixOfIndicator(index: int, n: nat)
    ensures Prefix(Indicator(index), n) == if 0 <= index < n then 1 else 0
  {
    if n > 0 {
      PrefixOfIndicator(index, n - 1);
    }
  }

  lemma {:induction false} StartConserves(c: Call, g: int -> nat)
    ensures StreamOk(c, Start(c)) && DropsOk(Start(c)) && Conserved(Start(c), g)
  {
    StartOk(c);
    WorkersLoadNothing(c.workers, g);
  }

  /** A nil return means that the callback ran exactly once for each batch that entered
      the batch channel, and for nothing else. */
  lemma {:induction false} NilMeansExactlyOnce(c: Call, steps: seq<Step>, index: int)
    requires c.workers > 0 && ValidRun(c, Start(c), steps)
    requires Finished(Run(c, Start(c), steps)) && Run(c, Start(c), steps).group.firstError == None
    ensures var s := Run(c, Start(c), steps);
      TimesDelivered(s.sink.delivered, index) == if 0 <= index < SentCount(s.feed.producer) then 1 else 0
  {
    var g := Indicator(index);
    StartConserves(c, g);
    RunKeepsOk(c, Start(c), steps);
    RunConserves(c, Start(c), steps, g);
    RunDrops(c, Start(c), steps);
    var s := Run(c, Start(c), steps);
    NilLoads(c, s, g);
    TimesIsSum(s.sink.delivered, index);
    PrefixOfIndicator(index, SentCount(s.feed.producer));
  }

  function Sizes(c: Call): int -> nat {
    (k: int) => if 0 <= k < |c.pages| then |c.pages[k]| else 0
  }

  /** All cases that the scan yields. */
  function ScannedCases(c: Call): nat {
    Prefix(Sizes(c), |c.pages|)
  }

  function SizeSum(delivered: seq<Progress>): int {
    if delivered == [] then 0
    else SizeSum(delivered[..|delivered| - 1]) + delivered[|delivered| - 1].frame.chunkSize
  }

  lemma {:induction false} SizeSumIsLoad(c: Call, s: Stream, delivered: seq<Progress>)
    requires forall p | p in delivered :: FrameIs(c, s, p.frame)
    ensures SizeSum(delivered) == Sum(delivered, ProgressWeight(Sizes(c)))
  {
    if delivered != [] {
      var n := |delivered| - 1;
      SizeSumIsLoad(c, s, delivered[..n]);
      assert FrameIs(c, s, delivered[n].frame);
    }
  }

  /** If moreover the caller never cancelled, those are all scanned batches: the chunk
      indices are 0 to k-1, each once, and the chunk sizes add up to the scanned cases. */
  lemma {:induction false} NilMeansComplete(c: Call, steps: seq<Step>, index: int)
    requires c.workers > 0 && ValidRun(c, Start(c), steps)
    requires Finished(Run(c, Start(c), steps)) && Run(c, Start(c), steps).group.firstError == None
    requires !Run(c, Start(c), steps).group.callerCancelled
    ensures var s := Run(c, Start(c), steps);
      && s.feed.scanned
      && TimesDelivered(s.sink.delivered, index) == (if 0 <= index < |c.pages| then 1 else 0)
      && SizeSum(s.sink.delivered) == ScannedCases(c)
  {
    NilMeansExactlyOnce(c, steps, index);
    StartConserves(c, Sizes(c));
    RunKeepsOk(c, Start(c), steps);
    RunConserves(c, Start(c), steps, Sizes(c));
    RunDrops(c, Start(c), steps);
    var s := Run(c, Start(c), steps);
    NilLoads(c, s, Sizes(c));
    SizeSumIsLoad(c, s, s.sink.delivered);
  }

  // ---- a cancelled caller ---------------------------------------------------------------------

  lemma {:induction false} RunCons(c: Call, s: Stream, step: Step, rest: seq<Step>)
    requires Enabled(c, s, step) && ValidRun(c, Apply(c, s, step), rest)
    ensures ValidRun(c, s, [step] + rest)
    ensures Run(c, s, [step] + rest) == Run(c, Apply(c, s, step), rest)
  {
  }

  /** The call has been cut short before its first batch: only the worker, the closer and
      the aggregator have yet to notice. */
  const CUT_SHORT := Stream(
    Feed(Ended(0), [], false, false, true), Crew([Idle], 1), Out([], true, false), Sink(Receiving, 0, []),
    Group(true, true, None), [], false)

  lemma {:induction false} CutShortReached(one: Case, rest: seq<Step>) returns (steps: seq<Step>)
    requires ValidRun(Call(1, [[one]], 1), CUT_SHORT, rest)
    ensures var c := Call(1, [[one]], 1);
      ValidRun(c, Start(c), steps) && Run(c, Start(c), steps) == Run(c, CUT_SHORT, rest)
  {
    var c := Call(1, [[one]], 1);
    var s0 := Start(c);
    assert s0.crew.workers == [Idle];
    var s1 := Apply(c, s0, CallerCancels);
    var s2 := Apply(c, s1, Produce(ScanInterrupted));
    var s3 := Apply(c, s2, Produce(CloseBatches));
    assert Apply(c, s3, Produce(ProducerReturns)) == CUT_SHORT;
    hide Apply, Enabled;
    RunCons(c, s3, Produce(ProducerReturns), rest);
    steps := [Produce(ProducerReturns)] + rest;
    RunCons(c, s2, Produce(CloseBatches), steps);
    steps := [Produce(CloseBatches)] + steps;
    RunCons(c, s1, Produce(ScanInterrupted), steps);
    steps := [Produce(ScanInterrupted)] + steps;
    RunCons(c, s0, CallerCancels, steps);
    steps := [CallerCancels] + steps;
  }

  lemma {:induction false} WindsDown(c: Call) returns (steps: seq<Step>)
    ensures ValidRun(c, CUT_SHORT, steps)
    ensures var s' := Run(c, CUT_SHORT, steps);
      Finished(s') && s'.group.firstError == None && s'.sink.delivered == [] && SentCount(s'.feed.producer) == 0
  {
    var s := CUT_SHORT;
    var s1 := Apply(c, s, Handle(0, WorkerDrained));
    var s2 := Apply(c, s1, Handle(0, WorkerDone));
    var s3 := Apply(c, s2, Handle(0, WorkerReturns));
    var s4 := Apply(c, s3, CloseFrames);
    var s5 := Apply(c, s4, Aggregate(AggregatorDrained));
    var s6 := Apply(c, s5, Aggregate(AggregatorReturns));
    assert s3.crew.workers == [Gone];
    assert Finished(s6);
    hide Apply, Enabled;
    RunCons(c, s5, Aggregate(AggregatorReturns), []);
    steps := [Aggregate(AggregatorReturns)] + [];
    RunCons(c, s4, Aggregate(AggregatorDrained), steps);
    steps := [Aggregate(AggregatorDrained)] + steps;
    RunCons(c, s3, CloseFrames, steps);
    steps := [CloseFrames] + steps;
    RunCons(c, s2, Handle(0, WorkerReturns), steps);
    steps := [Handle(0, WorkerReturns)] + steps;
    RunCons(c, s1, Handle(0, WorkerDone), steps);
    steps := [Handle(0, WorkerDone)] + steps;
    RunCons(c, s, Handle(0, WorkerDrained), steps);
    steps := [Handle(0, WorkerDrained)] + steps;
  }

  /** "Nil means that everything scanned was dispatched" fails when the caller cancels:
      the scan is cut short without an error, the worker sees a closed channel before it
      looks at the cancellation, and the call returns nil with a batch never offered. */
  lemma {:induction false} CancelMayReturnNil(one: Case) returns (steps: seq<Step>)
    ensures var c := Call(1, [[one]], 1);
      && ValidRun(c, Start(c), steps)
      && var s := Run(c, Start(c), steps);
      && Finished(s) && s.group.firstError == None && s.sink.delivered == [] && SentCount(s.feed.producer) == 0
  {
    var tail := WindsDown(Call(1, [[one]], 1));
    steps := CutShortReached(one, tail);
  }

  /** On a nil return every page was dispatched, and called back once, if and only if no
      cancellation stopped the producer's callback with a page still to send. */
  lemma {:induction false} NilCompleteExactly(c: Call, steps: seq<Step>)
    requires c.workers > 0 && ValidRun(c, Start(c), steps)
    requires Finished(Run(c, Start(c), steps)) && Run(c, Start(c), steps).group.firstError == None
    ensures var s := Run(c, Start(c), steps);
      (forall index | 0 <= index < |c.pages| :: TimesDelivered(s.sink.delivered, index) == 1) <==> !s.feed.cutShort
  {
    var s := Run(c, Start(c), steps);
    var n := SentCount(s.feed.producer);
    StartOk(c);
    RunKeepsOk(c, Start(c), steps);
    assert if s.feed.cutShort then n < |c.pages| else n == |c.pages|;
    hide Run, ValidRun, StreamOk, TimesDelivered, SentCount;
    if n < |c.pages| {
      NilMeansExactlyOnce(c, steps, n);
    } else {
      forall index | 0 <= index < |c.pages| ensures TimesDelivered(s.sink.delivered, index) == 1 {
        NilMeansExactlyOnce(c, steps, index);
      }
    }
  }

  // ---- running totals -------------------------------------------------------------------------

  function SuccessSum(delivered: seq<Progress>): nat {
    if delivered == [] then 0
    else SuccessSum(delivered[..|delivered| - 1]) + |delivered[|delivered| - 1].frame.success|
  }

  /** Each delivered frame carries the running 32-bit sum of the successes so far. */
  ghost predicate TotalsOk(c: Call, s: Stream) {
    && (s.sink.aggregator.Receiving? || s.sink.aggregator.Calling? ==>
          s.sink.total == Wrap32(SuccessSum(s.sink.delivered)))
    && forall j | 0 <= j < |s.sink.delivered| :: TotalAt(c, s.sink.delivered, j)
  }

  predicate TotalAt(c: Call, delivered: seq<Progress>, j: nat)
    requires j < |delivered|
  {
    && delivered[j].totalDispatched == Wrap32(SuccessSum(delivered[..j + 1]))
    && delivered[j].totalPlanned == Wrap32(c.planned)
  }

  lemma WrapAdds(a: int, b: int)
    ensures Wrap32(Wrap32(a) + b) == Wrap32(a + b)
  {
  }

  lemma {:induction false} DeliveryTotals(c: Call, d: seq<Progress>, p: Progress)
    requires forall j | 0 <= j < |d| :: TotalAt(c, d, j)
    requires p.totalDispatched == Wrap32(SuccessSum(d) + |p.frame.success|) && p.totalPlanned == Wrap32(c.planned)
    ensures SuccessSum(d + [p]) == SuccessSum(d) + |p.frame.success|
    ensures forall j | 0 <= j < |d + [p]| :: TotalAt(c, d + [p], j)
  {
    hide Wrap32;
    assert (d + [p])[..|d|] == d && (d + [p])[..|d| + 1] == d + [p];
    hide SuccessSum;
    forall j | 0 <= j < |d + [p]| ensures TotalAt(c, d + [p], j) {
      if j < |d| {
        assert TotalAt(c, d, j);
        assert (d + [p])[..j + 1] == d[..j + 1];
      }
    }
  }

  lemma {:induction false} CallbackTotals(c: Call, s: Stream)
    requires s.sink.aggregator.Calling? && TotalsOk(c, s)
    ensures TotalsOk(c, Aggregated(c, s, Callback(true)))
  {
    hide Wrap32, SuccessSum, TotalAt;
    var f := s.sink.aggregator.frame;
    var p := Progress(f, Wrap32(s.sink.total + |f.success|), Wrap32(c.planned));
    WrapAdds(SuccessSum(s.sink.delivered), |f.success|);
    DeliveryTotals(c, s.sink.delivered, p);
  }

  lemma {:induction false} StepTotals(c: Call, s: Stream, step: Step)
    requires Enabled(c, s, step) && TotalsOk(c, s)
    ensures TotalsOk(c, Apply(c, s, step))
  {
    match step
    case Produce(p) =>
      hide Wrap32, SuccessSum;
    case Handle(i, w) =>
      hide Wrap32, SuccessSum, NextWorker, FrameOf;
    case Aggregate(a) =>
      if a == Callback(true) {
        hide Aggregated, TotalsOk;
        CallbackTotals(c, s);
      } else {
        hide Wrap32, SuccessSum;
      }
    case _ =>
  }

  lemma {:induction false} RunTotals(c: Call, s: Stream, steps: seq<Step>)
    requires TotalsOk(c, s) && ValidRun(c, s, steps)
    ensures TotalsOk(c, Run(c, s, steps))
    decreases |steps|
  {
    hide TotalsOk;
    if steps != [] {
      StepTotals(c, s, steps[0]);
      RunTotals(c, Apply(c, s, steps[0]), steps[1..]);
    }
  }

  lemma {:induction false} SuccessWithinSizes(c: Call, s: Stream, delivered: seq<Progress>)
    requires forall p | p in delivered :: FrameIs(c, s, p.frame)
    ensures SuccessSum(delivered) <= Sum(delivered, ProgressWeight(Sizes(c)))
  {
    if delivered != [] {
      var n := |delivered| - 1;
      SuccessWithinSizes(c, s, delivered[..n]);
      assert FrameIs(c, s, delivered[n].frame);
    }
  }

  lemma {:induction false} PrefixGrows(g: int -> nat, m: nat, n: nat)
    requires m <= n
    ensures Prefix(g, m) <= Prefix(g, n)
  {
    if m < n {
      PrefixGrows(g, m, n - 1);
    }
  }

  lemma {:induction false} SuccessSumGrows(delivered: seq<Progress>, j: nat)
    requires j <= |delivered|
    ensures SuccessSum(delivered[..j]) <= SuccessSum(delivered)
    decreases |delivered|
  {
    if j == |delivered| {
      assert delivered[..j] == delivered;
    } else {
      var n := |delivered| - 1;
      SuccessSumGrows(delivered[..n], j);
      assert delivered[..n][..j] == delivered[..j];
    }
  }

  /** When the scan yields the counted cases and they fit in 32 bits, no frame's total
      wraps: TotalDispatched is the running number of successes and never exceeds
      TotalPlanned. */
  lemma {:induction false} RunningTotals(c: Call, steps: seq<Step>, j: nat)
    requires ValidRun(c, Start(c), steps)
    requires ScannedCases(c) <= c.planned < 0x8000_0000
    requires j < |Run(c, Start(c), steps).sink.delivered|
    ensures var delivered := Run(c, Start(c), steps).sink.delivered;
      && delivered[j].totalDispatched == SuccessSum(delivered[..j + 1])
      && delivered[j].totalPlanned == c.planned
      && 0 <= delivered[j].totalDispatched <= delivered[j].totalPlanned
  {
    StartConserves(c, Sizes(c));
    RunKeepsOk(c, Start(c), steps);
    RunConserves(c, Start(c), steps, Sizes(c));
    RunTotals(c, Start(c), steps);
    hide StreamOk, Conserved, TotalsOk, Run, ValidRun, Wrap32;
    TotalsFit(c, Run(c, Start(c), steps), j);
  }

  lemma {:induction false} TotalsFit(c: Call, s: Stream, j: nat)
    requires StreamOk(c, s) && Conserved(s, Sizes(c)) && TotalsOk(c, s)
    requires ScannedCases(c) <= c.planned < 0x8000_0000 && j < |s.sink.delivered|
    ensures s.sink.delivered[j].totalDispatched == SuccessSum(s.sink.delivered[..j + 1]) <= c.planned
    ensures s.sink.delivered[j].totalPlanned == c.planned
  {
    var d := s.sink.delivered;
    SuccessWithinSizes(c, s, d);
    PrefixGrows(Sizes(c), SentCount(s.feed.producer), |c.pages|);
    SuccessSumGrows(d, j + 1);
    assert TotalAt(c, d, j);
    WrapSmall(SuccessSum(d[..j + 1]));
    WrapSmall(c.planned);
  }

  /** The one value of an int32 that is congruent to x. */
  lemma WrapMeans(x: int)
    ensures -0x8000_0000 <= Wrap32(x) < 0x8000_0000 && (x - Wrap32(x)) % 0x1_0000_0000 == 0
  {
  }

  lemma WrapSmall(x: int)
    requires 0 <= x < 0x8000_0000
    ensures Wrap32(x) == x
  {
  }
}

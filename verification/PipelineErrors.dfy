/** Which error dispatchStream returns, read off the steps of a run: the errors that its
    goroutines ran into, in the order in which the goroutines returned. */
module PipelineErrors {
  import opened Domain
  import opened Pipeline

  /** The error of the goroutine that returns with this step, after the steps `past`: the
      producer's scan failed, a worker met the cancellation, the callback failed. */
  function ErrorOf(past: seq<Step>, step: Step): Option<Failure> {
    match step
    case Produce(ProducerReturns) => if Produce(ScanFails) in past then Some(ScanFailure) else None
    case Handle(i, WorkerReturns) => if MetCancellation(past, i) then Some(ContextFailure) else None
    case Aggregate(AggregatorReturns) => if Aggregate(Callback(false)) in past then Some(CallbackFailure) else None
    case _ => None
  }

  predicate MetCancellation(past: seq<Step>, i: nat) {
    Handle(i, WorkerCancelled) in past || Handle(i, EmitCancelled) in past
  }

  function ReturnedAt(steps: seq<Step>, k: nat): Option<Failure>
    requires k < |steps|
  {
    ErrorOf(steps[..k], steps[k])
  }

  ghost predicate NoneReturned(steps: seq<Step>, n: nat)
    requires n <= |steps|
  {
    forall k | 0 <= k < n :: ReturnedAt(steps, k) == None
  }

  /** e is the error of the first goroutine that returned one. */
  ghost predicate FirstReturned(steps: seq<Step>, e: Failure) {
    exists k: nat :: k < |steps| && ReturnedAt(steps, k) == Some(e) && NoneReturned(steps, k)
  }

  lemma {:induction false} StepsGrow(past: seq<Step>, step: Step)
    ensures NoneReturned(past + [step], |past|) <==> NoneReturned(past, |past|)
    ensures ReturnedAt(past + [step], |past|) == ErrorOf(past, step)
    ensures forall e | FirstReturned(past, e) :: FirstReturned(past + [step], e)
  {
    var steps := past + [step];
    assert steps[..|past|] == past;
    forall k | 0 <= k < |past| ensures ReturnedAt(steps, k) == ReturnedAt(past, k) {
      assert steps[..k] == past[..k];
    }
    forall e | FirstReturned(past, e) ensures FirstReturned(steps, e) {
      var k: nat :| k < |past| && ReturnedAt(past, k) == Some(e) && NoneReturned(past, k);
      assert NoneReturned(steps, k);
    }
  }

  /** What the group knows is what the steps so far have brought. */
  ghost predicate GroupTold(g: Group, past: seq<Step>) {
    && (g.callerCancelled <==> CallerCancels in past)
    && (g.cancelled <==> g.callerCancelled || g.firstError.Some?)
    && (g.firstError.None? ==> NoneReturned(past, |past|))
    && (g.firstError.Some? ==> FirstReturned(past, g.firstError.value))
    && (g.firstError == Some(ContextFailure) ==> g.callerCancelled)
  }

  ghost predicate ProducerTold(p: Producer, past: seq<Step>) {
    match p
    case Scanning(_) => Produce(ScanFails) !in past
    case Offering(_) => Produce(ScanFails) !in past
    case Closing(_, err) => err == if Produce(ScanFails) in past then Some(ScanFailure) else None
    case Ending(_, err) => err == if Produce(ScanFails) in past then Some(ScanFailure) else None
    case Ended(_) => true
  }

  ghost predicate WorkerTold(w: Worker, i: nat, past: seq<Step>) {
    match w
    case Leaving(err) => err == if MetCancellation(past, i) then Some(ContextFailure) else None
    case Returning(err) => err == if MetCancellation(past, i) then Some(ContextFailure) else None
    case Gone => true
    case _ => !MetCancellation(past, i)
  }

  ghost predicate AggregatorTold(a: Aggregator, past: seq<Step>) {
    match a
    case Stopping(err) => err == if Aggregate(Callback(false)) in past then Some(CallbackFailure) else None
    case Stopped => true
    case _ => Aggregate(Callback(false)) !in past
  }

  ghost predicate Told(s: Stream, past: seq<Step>) {
    && GroupTold(s.group, past) && ProducerTold(s.feed.producer, past) && AggregatorTold(s.sink.aggregator, past)
    && (forall i | 0 <= i < |s.crew.workers| :: WorkerTold(s.crew.workers[i], i, past))
    && (forall i: nat | MetCancellation(past, i) :: s.group.cancelled)
  }

  /** A goroutine returns with the error that the steps say it has met. */
  lemma {:induction false} ReportTold(g: Group, past: seq<Step>, step: Step, err: Option<Failure>)
    requires GroupTold(g, past) && step != CallerCancels && err == ErrorOf(past, step)
    requires err == Some(ContextFailure) ==> g.cancelled
    ensures GroupTold(Report(g, err), past + [step])
  {
    StepsGrow(past, step);
    hide ErrorOf;
    var steps := past + [step];
    if g.firstError.None? && err.None? {
      assert NoneReturned(steps, |steps|);
    }
    if g.firstError.None? && err.Some? {
      assert ReturnedAt(steps, |past|) == err && NoneReturned(steps, |past|);
    }
  }

  lemma {:induction false} QuietTold(g: Group, past: seq<Step>, step: Step)
    requires GroupTold(g, past) && step != CallerCancels && ErrorOf(past, step) == None
    ensures GroupTold(g, past + [step])
  {
    ReportTold(g, past, step, None);
  }

  lemma {:induction false} CancelTold(g: Group, past: seq<Step>)
    requires GroupTold(g, past)
    ensures GroupTold(g.(callerCancelled := true, cancelled := true), past + [CallerCancels])
  {
    StepsGrow(past, CallerCancels);
    if g.firstError.None? {
      assert NoneReturned(past + [CallerCancels], |past| + 1);
    }
  }

  lemma {:induction false} StepTold(c: Call, s: Stream, past: seq<Step>, step: Step)
    requires Enabled(c, s, step) && Told(s, past)
    ensures Told(Apply(c, s, step), past + [step])
  {
    match step
    case Produce(p) => ProducerStepTold(c, s, past, p);
    case Handle(i, w) => WorkerStepTold(c, s, past, i, w);
    case Aggregate(a) => AggregatorStepTold(c, s, past, a);
    case CloseFrames =>
      hide GroupTold;
      SameMeetings(past, step);
      hide MetCancellation;
      QuietTold(s.group, past, step);
    case CallerCancels =>
      hide GroupTold;
      SameMeetings(past, step);
      hide MetCancellation;
      CancelTold(s.group, past);
  }

  lemma {:induction false} ProducerStepTold(c: Call, s: Stream, past: seq<Step>, p: ProducerMove)
    requires Enabled(c, s, Produce(p)) && Told(s, past)
    ensures Told(Apply(c, s, Produce(p)), past + [Produce(p)])
  {
    hide GroupTold;
    SameMeetings(past, Produce(p));
    hide MetCancellation;
    if p.ProducerReturns? {
      ReportTold(s.group, past, Produce(p), s.feed.producer.err);
    } else {
      QuietTold(s.group, past, Produce(p));
    }
  }

  lemma {:induction false} AggregatorStepTold(c: Call, s: Stream, past: seq<Step>, a: AggregatorMove)
    requires Enabled(c, s, Aggregate(a)) && Told(s, past)
    ensures Told(Apply(c, s, Aggregate(a)), past + [Aggregate(a)])
  {
    hide GroupTold;
    SameMeetings(past, Aggregate(a));
    hide MetCancellation;
    if a.AggregatorReturns? {
      ReportTold(s.group, past, Aggregate(a), s.sink.aggregator.err);
    } else {
      QuietTold(s.group, past, Aggregate(a));
    }
  }

  lemma SameMeetings(past: seq<Step>, step: Step)
    requires !step.Handle?
    ensures forall i: nat :: MetCancellation(past + [step], i) <==> MetCancellation(past, i)
  {
  }

  lemma {:induction false} WorkerStepTold(c: Call, s: Stream, past: seq<Step>, i: nat, w: WorkerMove)
    requires Enabled(c, s, Handle(i, w)) && Told(s, past)
    ensures Told(Apply(c, s, Handle(i, w)), past + [Handle(i, w)])
  {
    hide GroupTold;
    var step := Handle(i, w);
    assert WorkerTold(s.crew.workers[i], i, past);
    if w.WorkerReturns? {
      ReportTold(s.group, past, step, s.crew.workers[i].err);
    } else {
      QuietTold(s.group, past, step);
    }
    var meets := w.WorkerCancelled? || w.EmitCancelled?;
    forall j: nat ensures MetCancellation(past + [step], j) <==> MetCancellation(past, j) || (meets && j == i) {
    }
    hide MetCancellation;
  }

  lemma {:induction false} RunTold(c: Call, s: Stream, past: seq<Step>, steps: seq<Step>)
    requires ValidRun(c, s, steps) && Told(s, past)
    ensures Told(Run(c, s, steps), past + steps)
    decreases |steps|
  {
    hide Enabled, Apply, Told;
    if steps == [] {
      assert past + steps == past;
    } else {
      StepTold(c, s, past, steps[0]);
      RunTold(c, Apply(c, s, steps[0]), past + [steps[0]], steps[1..]);
      assert past + steps == past + [steps[0]] + steps[1..];
    }
  }

  /** dispatchStream returns the error of the first goroutine that returned one, and nil if
      none did. It is a cancellation error only if the caller has cancelled: the workers
      that a failed scan or callback stops never hide that failure. */
  lemma {:induction false} FirstErrorWins(c: Call, steps: seq<Step>)
    requires ValidRun(c, Start(c), steps)
    ensures var g := Run(c, Start(c), steps).group;
      && (g.firstError.None? <==> NoneReturned(steps, |steps|))
      && (forall e :: g.firstError == Some(e) <==> FirstReturned(steps, e))
      && (g.firstError == Some(ContextFailure) ==> CallerCancels in steps)
      && (g.cancelled <==> CallerCancels in steps || !NoneReturned(steps, |steps|))
  {
    var s := Start(c);
    assert Told(s, []);
    RunTold(c, s, [], steps);
    assert [] + steps == steps;
    hide Start, Run, ValidRun;
    OnlyOneFirst(steps);
  }

  lemma {:induction false} OnlyOneFirst(steps: seq<Step>)
    ensures forall e, e' | FirstReturned(steps, e) && FirstReturned(steps, e') :: e == e'
    ensures forall e | FirstReturned(steps, e) :: !NoneReturned(steps, |steps|)
  {
    forall e, e' | FirstReturned(steps, e) && FirstReturned(steps, e') ensures e == e' {
      var k: nat :| k < |steps| && ReturnedAt(steps, k) == Some(e) && NoneReturned(steps, k);
      var k': nat :| k' < |steps| && ReturnedAt(steps, k') == Some(e') && NoneReturned(steps, k');
      assert k == k';
    }
  }
}

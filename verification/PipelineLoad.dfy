/** The bounds on what the pipeline holds are attained: with enough pages and a slow
    callback, both channels fill up and every goroutine holds a batch. */
module PipelineLoad {
  import opened Domain
  import opened Pipeline
  import opened PipelineSafety
  import PipelineProgress
  import FastPath

  function PageBatch(c: Call, k: nat): Batch {
    Batch(k, if k < |c.pages| then c.pages[k] else [])
  }

  /** A frame that reports nothing but an error. */
  function EmptyFrame(c: Call, k: nat): Frame {
    FastPath.Frame(k, |PageBatch(c, k).cases|, [], [], true)
  }

  function Busies(c: Call, from: nat, busy: nat): seq<Worker> {
    seq(c.workers, i requires i >= 0 => if i < busy then Busy(PageBatch(c, from + i)) else Idle)
  }

  function Queued(c: Call, from: nat, n: nat): seq<Batch> {
    seq(n, i requires i >= 0 => PageBatch(c, from + i))
  }

  /** The aggregator is in its callback with the first of `framed` frames and the others
      wait; `busy` workers dispatch the next batches and `queued` more wait for a worker. */
  function Loaded(c: Call, framed: nat, busy: nat, queued: nat, offering: bool): Stream {
    var sent := framed + busy + queued;
    Stream(
      Feed(if offering then Offering(sent) else Scanning(sent), Queued(c, framed + busy, queued), true, false, false),
      Crew(Busies(c, framed, busy), c.workers),
      Out(if framed <= 1 then [] else seq(framed - 1, i requires i >= 0 => EmptyFrame(c, i + 1)), true, false),
      Sink(if framed == 0 then Receiving else Calling(EmptyFrame(c, 0)), 0, []),
      Group(false, false, None), [], false)
  }

  lemma {:induction false} NextPage(c: Call, framed: nat, busy: nat, queued: nat)
    requires framed + busy + queued < |c.pages|
    ensures Enabled(c, Loaded(c, framed, busy, queued, false), Produce(Page))
    ensures Apply(c, Loaded(c, framed, busy, queued, false), Produce(Page)) == Loaded(c, framed, busy, queued, true)
  {
  }

  lemma {:induction false} NextSend(c: Call, framed: nat, busy: nat, queued: nat)
    requires framed + busy + queued < |c.pages| && queued < 2 * c.workers
    ensures Enabled(c, Loaded(c, framed, busy, queued, true), Produce(Send))
    ensures Apply(c, Loaded(c, framed, busy, queued, true), Produce(Send)) == Loaded(c, framed, busy, queued + 1, false)
  {
    assert Queued(c, framed + busy, queued + 1)
      == Queued(c, framed + busy, queued) + [PageBatch(c, framed + busy + queued)];
  }

  lemma {:induction false} NextTake(c: Call, framed: nat, busy: nat)
    requires busy < c.workers
    ensures Enabled(c, Loaded(c, framed, busy, 1, false), Handle(busy, Take))
    ensures Apply(c, Loaded(c, framed, busy, 1, false), Handle(busy, Take)) == Loaded(c, framed, busy + 1, 0, false)
  {
    assert Queued(c, framed + busy, 1)[1..] == Queued(c, framed + busy + 1, 0);
    assert Busies(c, framed, busy)[busy := Busy(PageBatch(c, framed + busy))] == Busies(c, framed, busy + 1);
  }

  /** The first worker reports its batch; the first frame goes to the callback at once. */
  lemma {:induction false} NextFrame(c: Call, framed: nat) returns (steps: seq<Step>)
    requires c.workers > 0 && framed <= c.workers
    ensures ValidRun(c, Loaded(c, framed, 1, 0, false), steps)
    ensures Run(c, Loaded(c, framed, 1, 0, false), steps) == Loaded(c, framed + 1, 0, 0, false)
  {
    var f, w0 := EmptyFrame(c, framed), Busies(c, framed, 0);
    var s0 := Loaded(c, framed, 1, 0, false);
    var s1 := s0.(crew := s0.crew.(workers := s0.crew.workers[0 := Emitting(f)]));
    var s2 := s1.(crew := s1.crew.(workers := w0), out := s1.out.(frames := s1.out.frames + [f]));
    assert s0.crew.workers[0] == Busy(PageBatch(c, framed));
    assert s1.crew.workers[0 := Idle] == w0 == Busies(c, framed + 1, 0);
    assert Queued(c, framed + 1, 0) == [];
    assert Enabled(c, s0, Handle(0, Work(f))) && Apply(c, s0, Handle(0, Work(f))) == s1;
    assert Enabled(c, s1, Handle(0, Emit)) && Apply(c, s1, Handle(0, Emit)) == s2;
    var s3, rest: seq<Step> := s2, [];
    if framed == 0 {
      s3, rest := Apply(c, s2, Aggregate(Receive)), [Aggregate(Receive)];
      assert s3 == Loaded(c, 1, 0, 0, false);
    } else {
      assert s3.out.frames == Loaded(c, framed + 1, 0, 0, false).out.frames;
    }
    hide Apply, Enabled, Loaded;
    if framed == 0 {
      PipelineProgress.RunCons(c, s2, Aggregate(Receive), []);
      assert rest == [Aggregate(Receive)] + [];
    }
    PipelineProgress.RunCons(c, s1, Handle(0, Emit), rest);
    PipelineProgress.RunCons(c, s0, Handle(0, Work(f)), [Handle(0, Emit)] + rest);
    steps := [Handle(0, Work(f))] + ([Handle(0, Emit)] + rest);
  }

  lemma {:induction false} RunAppend(c: Call, s: Stream, a: seq<Step>, b: seq<Step>)
    requires ValidRun(c, s, a) && ValidRun(c, Run(c, s, a), b)
    ensures ValidRun(c, s, a + b) && Run(c, s, a + b) == Run(c, Run(c, s, a), b)
    decreases |a|
  {
    hide Apply, Enabled;
    if a == [] {
      assert a + b == b;
    } else {
      RunAppend(c, Apply(c, s, a[0]), a[1..], b);
      PipelineProgress.RunCons(c, s, a[0], a[1..] + b);
      assert a + b == [a[0]] + (a[1..] + b);
    }
  }

  lemma {:induction false} TwoSteps(c: Call, s: Stream, one: Step, two: Step)
    requires Enabled(c, s, one) && Enabled(c, Apply(c, s, one), two)
    ensures ValidRun(c, s, [one, two]) && Run(c, s, [one, two]) == Apply(c, Apply(c, s, one), two)
  {
    hide Apply, Enabled;
    PipelineProgress.RunCons(c, Apply(c, s, one), two, []);
    PipelineProgress.RunCons(c, s, one, [two] + []);
    assert [one] + ([two] + []) == [one, two];
  }

  lemma {:induction false} OneStep(c: Call, s: Stream, one: Step)
    requires Enabled(c, s, one)
    ensures ValidRun(c, s, [one]) && Run(c, s, [one]) == Apply(c, s, one)
  {
    hide Apply, Enabled;
    PipelineProgress.RunCons(c, s, one, []);
    assert [one] + [] == [one];
  }

  /** One more worker has a batch. */
  lemma {:induction false} OneMoreBusy(c: Call, framed: nat, busy: nat) returns (steps: seq<Step>)
    requires framed + busy < |c.pages| && busy < c.workers
    ensures ValidRun(c, Loaded(c, framed, busy, 0, false), steps)
    ensures Run(c, Loaded(c, framed, busy, 0, false), steps) == Loaded(c, framed, busy + 1, 0, false)
  {
    hide Apply, Enabled, Loaded;
    NextPage(c, framed, busy, 0);
    NextSend(c, framed, busy, 0);
    NextTake(c, framed, busy);
    TwoSteps(c, Loaded(c, framed, busy, 0, false), Produce(Page), Produce(Send));
    OneStep(c, Loaded(c, framed, busy, 1, false), Handle(busy, Take));
    steps := [Produce(Page), Produce(Send)] + [Handle(busy, Take)];
    RunAppend(c, Loaded(c, framed, busy, 0, false), [Produce(Page), Produce(Send)], [Handle(busy, Take)]);
  }

  /** Runs to this load: first the frames, then the workers, then the queue of batches. */
  lemma {:induction false} Reaches(c: Call, framed: nat, busy: nat, queued: nat) returns (steps: seq<Step>)
    requires c.workers > 0 && framed <= c.workers + 1 && busy <= c.workers && queued <= 2 * c.workers
    requires framed + busy + queued <= |c.pages|
    ensures ValidRun(c, Start(c), steps) && Run(c, Start(c), steps) == Loaded(c, framed, busy, queued, false)
    decreases framed + busy + queued, framed, busy
  {
    NothingLoaded(c);
    hide Apply, Enabled, Loaded, Start;
    var more: seq<Step>;
    if queued > 0 {
      steps := Reaches(c, framed, busy, queued - 1);
      NextPage(c, framed, busy, queued - 1);
      NextSend(c, framed, busy, queued - 1);
      more := [Produce(Page), Produce(Send)];
      TwoSteps(c, Loaded(c, framed, busy, queued - 1, false), Produce(Page), Produce(Send));
    } else if busy > 0 {
      steps := Reaches(c, framed, busy - 1, 0);
      more := OneMoreBusy(c, framed, busy - 1);
    } else if framed > 0 {
      steps := Reaches(c, framed - 1, 0, 0);
      var one := OneMoreBusy(c, framed - 1, 0);
      var two := NextFrame(c, framed - 1);
      more := one + two;
      RunAppend(c, Loaded(c, framed - 1, 0, 0, false), one, two);
    } else {
      return [];
    }
    RunAppend(c, Start(c), steps, more);
    steps := steps + more;
  }

  lemma NothingLoaded(c: Call)
    ensures Loaded(c, 0, 0, 0, false) == Start(c)
  {
    assert Busies(c, 0, 0) == Start(c).crew.workers && Queued(c, 0, 0) == [];
  }

  lemma {:induction false} AllDispatching(c: Call, from: nat, n: nat)
    ensures Sum(seq(n, i requires i >= 0 => Busy(PageBatch(c, from + i))), Dispatching) == n
  {
    if n > 0 {
      AllDispatching(c, from, n - 1);
      assert seq(n, i requires i >= 0 => Busy(PageBatch(c, from + i)))[..n - 1]
        == seq(n - 1, i requires i >= 0 => Busy(PageBatch(c, from + i)));
    }
  }

  /** No smaller bound holds, for any number of workers: with enough pages some run holds
      3 * WorkerCount + 1 batches while WorkerCount frames wait and one more is called back. */
  lemma {:induction false} BoundsAreReached(c: Call) returns (steps: seq<Step>)
    requires c.workers > 0 && |c.pages| >= 4 * c.workers + 2
    ensures ValidRun(c, Start(c), steps)
    ensures var s := Run(c, Start(c), steps);
      && InFlight(s) == 3 * c.workers + 1 && |s.out.frames| == c.workers && s.sink.aggregator.Calling?
  {
    var w := c.workers;
    var s := Loaded(c, w + 1, w, 2 * w, false);
    steps := Reaches(c, w + 1, w, 2 * w);
    NextPage(c, w + 1, w, 2 * w);
    OneStep(c, s, Produce(Page));
    RunAppend(c, Start(c), steps, [Produce(Page)]);
    steps := steps + [Produce(Page)];
    AllDispatching(c, w + 1, w);
    assert Busies(c, w + 1, w) == seq(w, i requires i >= 0 => Busy(PageBatch(c, w + 1 + i)));
    hide Apply, Enabled, Run, ValidRun;
  }
}

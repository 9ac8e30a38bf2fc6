/** When a message may be claimed, over whole runs: not before its fast-path grace is over,
    and not before the retry time that a committed pass has set. */
module Waiting {
  import opened Domain
  import opened BatchResult
  import opened Store
  import opened StoreEffects
  import opened Relay
  import opened Protocol
  import opened Invariant
  import opened Safety
  import opened RelayProgress
  import Backoff

  /** A relay's lease starts when it reads the clock for its claim. */
  ghost predicate LeaseTimed(c: RelayConfig, s: System) {
    forall a | a in s.locals :: LocalTimed(c, s.locals[a])
  }

  ghost predicate LocalTimed(c: RelayConfig, l: Local) {
    l.RelayClaimed? || l.RelayPublished? ==>
      forall id | id in l.copies :: l.copies[id].leaseUntil == Some(l.now + c.leaseDuration)
  }

  lemma {:induction false} StepKeepsTimed(c: RelayConfig, s: System, step: Step)
    requires LeaseTimed(c, s) && Enabled(c, s, step)
    ensures LeaseTimed(c, Apply(c, s, step))
  {
    hide PersistChunk, PersistSingle, Observe, WriteBackOf, ReplayChunk, ClaimSelection, HonestResult, MakePlan;
    hide ClaimRows, MarkFailed, Complete, IdsOf;
  }

  lemma {:induction false} RunKeepsTimed(c: RelayConfig, s: System, steps: seq<Step>)
    requires LeaseTimed(c, s) && ValidRun(c, s, steps)
    ensures LeaseTimed(c, Run(c, s, steps))
    decreases |steps|
  {
    hide LeaseTimed, Enabled, Apply;
    if steps != [] {
      StepKeepsTimed(c, s, steps[0]);
      RunKeepsTimed(c, Apply(c, s, steps[0]), steps[1..]);
    }
  }

  /** The row has ended, or no claim that reads the clock before `at` may take it: neither
      now nor after a claim that has taken it from then on. */
  ghost predicate NotBefore(c: RelayConfig, s: System, id: Id, at: Time) {
    && id in s.tables.outbox
    && var m := s.tables.outbox[id];
    match m.state
    case Pending => m.availableAt >= at
    case Processing => m.leaseUntil.Some? && m.leaseUntil.value >= at + c.leaseDuration
    case _ => true
  }

  lemma {:induction false} BeginKeepsWait(
    c: RelayConfig, s: System, actor: Actor, requestId: string, cases: seq<Case>, version: string, at': Time,
    single: bool, id: Id, at: Time)
    requires Inv(c, s) && requestId != "" && NotBefore(c, s, id, at)
    ensures NotBefore(c, BeginWith(s, actor, version, PersistChunk(s.tables, requestId, cases, version, at'), single),
      id, at)
  {
    BeginKeepsOutbox(c, s, actor, requestId, cases, version, at', single);
    hide Inv, PersistChunk, BeginWith;
  }

  /** A pass never sets a retry time before its own claim. */
  lemma {:induction false} RetryAfterNow(c: RelayConfig, now: Time, attempt: int)
    requires ValidConfig(c) && BackoffFits(c)
    ensures RetryAt(c, now, attempt) > now
  {
    Backoff.DelayMonotone(c.initialBackoff, c.maxBackoff, attempt, attempt);
    Backoff.FitsIsExact(c.initialBackoff, c.maxBackoff, attempt);
  }

  /** The holder of a row that had to wait has read the clock late enough. */
  lemma {:induction false} HolderIsLate(c: RelayConfig, s: System, a: Actor, id: Id, at: Time)
    requires Inv(c, s) && LeaseTimed(c, s) && NotBefore(c, s, id, at)
    requires a in s.locals && s.locals[a].RelayPublished? && id in s.locals[a].ids
    requires Untouched(s.tables, s.locals[a].ids, s.locals[a].copies)
    ensures s.locals[a].now >= at
  {
    var l := s.locals[a];
    assert LocalTimed(c, l);
    assert LocalOk(s, c.maxAttempts, l);
    ClaimedCopies(c, s, l.token, l.ids, l.copies);
    hide Inv;
  }

  /** A pass that commits makes its rows wait for its own retry time. */
  lemma {:induction false} RelayKeepsWait(c: RelayConfig, s: System, a: Actor, id: Id, at: Time)
    requires ValidConfig(c) && Inv(c, s) && LeaseTimed(c, s) && BackoffFits(c) && NotBefore(c, s, id, at)
    requires a in s.locals && s.locals[a].RelayPublished?
    ensures NotBefore(c, Apply(c, s, WriteBack(a)), id, at)
  {
    hide Inv, LeaseTimed, BackoffFits, Apply, WriteBackOf, Untouched, RetryAt;
    var l := s.locals[a];
    if Untouched(s.tables, l.ids, l.copies) && id in l.ids {
      HolderIsLate(c, s, a, id, at);
      RetryAfterNow(c, l.now, l.plan.maxAttempt);
    }
    LeaseFencing(c, s, a);
  }

  lemma {:induction false} FastKeepsWait(c: RelayConfig, s: System, a: Actor, id: Id, at: Time)
    requires ValidConfig(c) && Inv(c, s) && NotBefore(c, s, id, at)
    requires a in s.locals && (s.locals[a].SinglePublished? || s.locals[a].ChunkPublished?)
    ensures NotBefore(c, Apply(c, s, WriteBack(a)), id, at)
  {
    hide Inv, Apply, WriteBackOf;
    if s.locals[a].SinglePublished? {
      SingleFencing(c, s, a);
    } else {
      FastPathFencing(c, s, a);
    }
  }

  lemma {:induction false} StepKeepsWait(c: RelayConfig, s: System, step: Step, id: Id, at: Time)
    requires ValidConfig(c) && Inv(c, s) && LeaseTimed(c, s) && BackoffFits(c)
    requires Enabled(c, s, step) && NotBefore(c, s, id, at)
    ensures NotBefore(c, Apply(c, s, step), id, at)
    ensures Claims(step, id) ==> step.now >= at
  {
    assert Wf(s.tables);
    hide Inv, Wf, LeaseTimed, BackoffFits;
    match step
    case BeginSingle(actor, requestId, cs, version, at') =>
      SingleIsChunk(s.tables, requestId, cs, version, at');
      hide NotBefore, PersistChunk, PersistSingle;
      BeginKeepsWait(c, s, actor, requestId, [cs], version, at', true, id, at);
    case BeginChunk(actor, requestId, cases, version, at') =>
      hide NotBefore, PersistChunk;
      BeginKeepsWait(c, s, actor, requestId, cases, version, at', false, id, at);
    case WriteBack(actor) =>
      hide NotBefore, Apply;
      if s.locals[actor].RelayPublished? {
        RelayKeepsWait(c, s, actor, id, at);
      } else {
        FastKeepsWait(c, s, actor, id, at);
      }
    case Claim(actor, now, token, locked, ids) =>
      ClaimKeepsWait(c, s, step, id, at);
    case _ =>
  }

  lemma {:induction false} ClaimKeepsWait(c: RelayConfig, s: System, step: Step, id: Id, at: Time)
    requires ValidConfig(c) && Inv(c, s) && step.Claim? && Enabled(c, s, step) && NotBefore(c, s, id, at)
    ensures NotBefore(c, Apply(c, s, step), id, at)
    ensures Claims(step, id) ==> step.now >= at
  {
    if id in step.ids {
      LeaseIsExclusive(c, s, step, id);
    }
    hide Inv, ClaimSelection;
  }

  /** No claim of the run that takes this row has read the clock before `at`. */
  predicate ClaimsFrom(steps: seq<Step>, id: Id, at: Time) {
    forall i | 0 <= i < |steps| && Claims(steps[i], id) :: steps[i].now >= at
  }

  lemma {:induction false} RunWaits(c: RelayConfig, s: System, steps: seq<Step>, id: Id, at: Time)
    requires ValidConfig(c) && Inv(c, s) && LeaseTimed(c, s) && BackoffFits(c) && NotBefore(c, s, id, at)
    requires ValidRun(c, s, steps)
    ensures ClaimsFrom(steps, id, at)
    decreases |steps|
  {
    hide Inv, LeaseTimed, BackoffFits, NotBefore, Enabled, Apply;
    if steps != [] {
      StepKeepsWait(c, s, steps[0], id, at);
      StepKeepsInv(c, s, steps[0]);
      StepKeepsTimed(c, s, steps[0]);
      RunWaits(c, Apply(c, s, steps[0]), steps[1..], id, at);
      assert forall i | 0 < i < |steps| :: steps[i] == steps[1..][i - 1];
    }
  }

  // ---- the two waits ---------------------------------------------------------------------------

  lemma {:induction false} ReachableTimed(c: RelayConfig, steps: seq<Step>)
    requires ValidConfig(c) && ValidRun(c, INITIAL, steps)
    ensures Inv(c, Run(c, INITIAL, steps)) && LeaseTimed(c, Run(c, INITIAL, steps))
  {
    hide ValidRun, Run, Inv;
    ReachableInv(c, steps);
    RunKeepsTimed(c, INITIAL, steps);
  }

  lemma {:induction false} NewRowWaits(c: RelayConfig, s: System, begin: Step, id: Id)
    requires ValidConfig(c) && Inv(c, s) && Enabled(c, s, begin) && (begin.BeginSingle? || begin.BeginChunk?)
    requires id in Apply(c, s, begin).tables.outbox && id !in s.tables.outbox
    ensures NotBefore(c, Apply(c, s, begin), id, begin.at)
  {
    assert Wf(s.tables);
    hide Inv, Wf;
    match begin
    case BeginSingle(actor, requestId, cs, version, at) =>
      SingleIsChunk(s.tables, requestId, cs, version, at);
      hide PersistChunk, PersistSingle;
      BeginKeepsOutbox(c, s, actor, requestId, [cs], version, at, true);
    case BeginChunk(actor, requestId, cases, version, at) =>
      hide PersistChunk;
      BeginKeepsOutbox(c, s, actor, requestId, cases, version, at, false);
  }

  /** The fast path has its grace: in every run, no claim that reads the clock before the
      grace of a new message is over takes it, whatever happens to the message meanwhile. */
  lemma {:induction false} GraceHolds(c: RelayConfig, before: seq<Step>, begin: Step, steps: seq<Step>, id: Id)
    requires ValidConfig(c) && BackoffFits(c) && ValidRun(c, INITIAL, before)
    requires begin.BeginSingle? || begin.BeginChunk?
    requires Enabled(c, Run(c, INITIAL, before), begin)
    requires ValidRun(c, Apply(c, Run(c, INITIAL, before), begin), steps)
    requires id in Apply(c, Run(c, INITIAL, before), begin).tables.outbox
    requires id !in Run(c, INITIAL, before).tables.outbox
    ensures ClaimsFrom(steps, id, begin.at)
  {
    var s := Run(c, INITIAL, before);
    hide ValidRun, Run, Inv, LeaseTimed, NotBefore, Enabled, Apply, BackoffFits;
    ReachableTimed(c, before);
    NewRowWaits(c, s, begin, id);
    StepKeepsInv(c, s, begin);
    StepKeepsTimed(c, s, begin);
    RunWaits(c, Apply(c, s, begin), steps, id, begin.at);
  }

  /** A retried message has its backoff: in every run, no claim that reads the clock before
      the retry time of the pass that put it back takes it. */
  lemma {:induction false} BackoffHolds(c: RelayConfig, before: seq<Step>, a: Actor, steps: seq<Step>, id: Id)
    requires ValidConfig(c) && BackoffFits(c) && ValidRun(c, INITIAL, before)
    requires var s := Run(c, INITIAL, before);
      && a in s.locals && s.locals[a].RelayPublished? && Enabled(c, s, WriteBack(a))
      && Untouched(s.tables, s.locals[a].ids, s.locals[a].copies)
      && id in s.locals[a].ids && id !in s.locals[a].plan.success
      && id in s.locals[a].copies && s.locals[a].copies[id].attempts < c.maxAttempts
      && ValidRun(c, Apply(c, s, WriteBack(a)), steps)
    ensures var l := Run(c, INITIAL, before).locals[a];
      ClaimsFrom(steps, id, RetryAt(c, l.now, l.plan.maxAttempt))
  {
    var s := Run(c, INITIAL, before);
    var l := s.locals[a];
    hide ValidRun, Run, Inv, LeaseTimed, Enabled, Apply, BackoffFits, Untouched, RetryAt;
    ReachableTimed(c, before);
    RelayOutcome(c, s, a, id);
    StepKeepsInv(c, s, WriteBack(a));
    StepKeepsTimed(c, s, WriteBack(a));
    RunWaits(c, Apply(c, s, WriteBack(a)), steps, id, RetryAt(c, l.now, l.plan.maxAttempt));
  }
}

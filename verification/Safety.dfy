/** What the invariant means: properties of every reachable state and of every run. */
module Safety {
  import opened Domain
  import opened BatchResult
  import opened Store
  import opened StoreEffects
  import opened Relay
  import opened Protocol
  import opened Invariant
  import Backoff

  lemma {:induction false} ReachableInv(c: RelayConfig, steps: seq<Step>)
    requires ValidConfig(c) && ValidRun(c, INITIAL, steps)
    ensures Inv(c, Run(c, INITIAL, steps))
  {
    InitialInv(c);
    RunKeepsInv(c, INITIAL, steps);
  }

  // ---- both tables agree ----------------------------------------------------------

  /** Whatever the interleaving of fast paths, relays, callbacks and crashes:
      DISPATCH_FAILED is only ever stored together with a DEAD message, and a DEAD
      message belongs to a record that has left WAIT. */
  lemma {:induction false} TablesAgree(c: RelayConfig, steps: seq<Step>, id: Id)
    requires ValidConfig(c) && ValidRun(c, INITIAL, steps)
    requires id in Run(c, INITIAL, steps).tables.records
    ensures var t := Run(c, INITIAL, steps).tables;
      && id in t.outbox
      && (t.records[id].status == DispatchFailed ==> t.outbox[id].state == Dead)
      && (t.outbox[id].state == Dead ==> t.records[id].status != Wait)
  {
    ReachableInv(c, steps);
    var s := Run(c, INITIAL, steps);
    assert id in s.tables.records.Keys && id in s.tables.outbox.Keys;
    assert RowOk(s, c.maxAttempts, id);
  }

  /** A message waiting for a relay always has an attempt left, stale holders and
      crashes included; attempts counts exactly the claims of the row. */
  lemma {:induction false} PendingHasAttemptsLeft(c: RelayConfig, steps: seq<Step>, id: Id)
    requires ValidConfig(c) && ValidRun(c, INITIAL, steps)
    requires id in Run(c, INITIAL, steps).tables.outbox
    ensures var s := Run(c, INITIAL, steps);
      && (s.tables.outbox[id].state.Pending? ==> s.tables.outbox[id].attempts < c.maxAttempts)
      && s.tables.outbox[id].attempts == |ClaimsOf(s.claims, id)|
  {
    ReachableInv(c, steps);
    var s := Run(c, INITIAL, steps);
    assert id in s.tables.records.Keys && id in s.tables.outbox.Keys;
    assert RowOk(s, c.maxAttempts, id);
  }

  // ---- no message is lost -----------------------------------------------------------

  lemma {:induction false} DistinctCardinality(ids: seq<Id>)
    requires Distinct(ids)
    ensures |SetOf(ids)| == |ids|
  {
    if ids != [] {
      var n := |ids| - 1;
      DistinctCardinality(ids[..n]);
      assert SetOf(ids) == SetOf(ids[..n]) + {ids[n]};
    }
  }

  /** A claimable row is in every claim that is large enough and meets no lock. */
  lemma {:induction false} LargeClaimTakes(outbox: map<Id, Message>, now: Time, limit: nat, ids: seq<Id>, id: Id)
    requires ClaimSelection(outbox, now, limit, {}, ids)
    requires id in outbox && Claimable(outbox[id], now) && limit >= |outbox|
    ensures id in ids
  {
    SelectionDistinct(outbox, now, limit, {}, ids);
    DistinctCardinality(ids);
    assert Due(outbox, now, {}, id);
    if id !in ids {
      FewerThan(SetOf(ids), outbox.Keys, id);
    }
  }

  lemma {:induction false} FewerThan(a: set<Id>, b: set<Id>, x: Id)
    requires a <= b && x in b && x !in a
    ensures |a| < |b|
  {
    SubsetCardinality(a, b - {x});
  }

  lemma {:induction false} SubsetCardinality(a: set<Id>, b: set<Id>)
    requires a <= b
    ensures |a| <= |b|
    ensures |a| == |b| ==> a == b
  {
    assert b == a + (b - a);
  }

  /** From this time on a claim may take the row (until then its grace, backoff or
      lease holds it). */
  function ClaimableFrom(m: Message): Time {
    match m.state
    case Processing => if m.leaseUntil.Some? then m.leaseUntil.value else m.availableAt
    case _ => m.availableAt
  }

  /** Every committed record keeps exactly one message, with its case and version;
      the message was published with the broker's acknowledgement, or is DEAD, or is
      taken by every sufficiently large claim from a known time on. */
  lemma {:induction false} NoLostMessage(c: RelayConfig, steps: seq<Step>, id: Id)
    requires ValidConfig(c) && ValidRun(c, INITIAL, steps)
    requires id in Run(c, INITIAL, steps).tables.records
    ensures var s := Run(c, INITIAL, steps);
      && id in s.tables.outbox && s.tables.outbox[id].executionId == id
      && (forall other | other in s.tables.outbox && s.tables.outbox[other].executionId == id :: other == id)
      && s.tables.outbox[id].caseId == s.tables.records[id].caseId
      && s.tables.outbox[id].version == s.tables.records[id].version
    ensures var s := Run(c, INITIAL, steps);
      var m := s.tables.outbox[id];
      || (m.state == OutboxState.Published && id in s.acked)
      || m.state == Dead
      || (forall now, limit: nat, ids ::
            now >= ClaimableFrom(m) && limit >= |s.tables.outbox|
              && ClaimSelection(s.tables.outbox, now, limit, {}, ids)
            ==> id in ids)
  {
    ReachableInv(c, steps);
    var s := Run(c, INITIAL, steps);
    assert id in s.tables.records.Keys && id in s.tables.outbox.Keys;
    assert RowOk(s, c.maxAttempts, id) && PairedRow(s.tables, id);
    forall other | other in s.tables.outbox ensures s.tables.outbox[other].executionId == other {
      assert RowKeyed(s.tables, other);
    }
    var m := s.tables.outbox[id];
    if m.state.Pending? || m.state.Processing? {
      forall now, limit: nat, ids |
        now >= ClaimableFrom(m) && limit >= |s.tables.outbox| && ClaimSelection(s.tables.outbox, now, limit, {}, ids)
        ensures id in ids
      {
        LargeClaimTakes(s.tables.outbox, now, limit, ids, id);
      }
    }
  }

  // ---- lease fencing --------------------------------------------------------------------

  /** No row claimed by this pass has been touched since. */
  predicate Untouched(t: Tables, ids: seq<Id>, copies: map<Id, Message>) {
    forall id | id in ids :: id in t.outbox && id in copies && t.outbox[id] == copies[id]
  }

  predicate Finished(m: Message, m': Message, retryAt: Time) {
    || m' == Patched(m, ToPublished)
    || m' == Patched(m, ToDead)
    || m' == Patched(m, ToPending(retryAt))
  }

  /** A relay write-back commits exactly when every row it claimed is still as it was
      claimed (same token, same attempts). Then each of those rows, and no other,
      leaves PROCESSING; otherwise both tables stay as they were. */
  lemma {:induction false} LeaseFencing(c: RelayConfig, s: System, actor: Actor)
    requires ValidConfig(c) && Inv(c, s) && actor in s.locals && s.locals[actor].RelayPublished?
    ensures var l := s.locals[actor];
      var t' := Apply(c, s, WriteBack(actor)).tables;
      && (Untouched(s.tables, l.ids, l.copies) ==>
            && (forall id | id in l.ids :: id in t'.outbox
                  && Finished(l.copies[id], t'.outbox[id], RetryAt(c, l.now, l.plan.maxAttempt)))
            && (forall id | id in s.tables.outbox && id !in l.ids ::
                  id in t'.outbox && t'.outbox[id] == s.tables.outbox[id])
            && t'.outbox.Keys == s.tables.outbox.Keys)
      && (Untouched(s.tables, l.ids, l.copies) <==> WriteBackOf(c, s.tables, l).Some?)
      && (!Untouched(s.tables, l.ids, l.copies) ==> t' == s.tables)
  {
    var l := s.locals[actor];
    assert LocalOk(s, c.maxAttempts, l);
    hide Inv, LocalOk, RelayWriteBack, Untouched, Finished, PlanOk;
    HolderCommits(c, s, l);
    HolderTables(c, s, actor);
    if RelayWriteBack(s.tables, l.token, l.copies, l.plan, RetryAt(c, l.now, l.plan.maxAttempt)).Some? {
      HolderFinishes(c, s, l);
    }
  }

  lemma {:induction false} HolderTables(c: RelayConfig, s: System, actor: Actor)
    requires actor in s.locals && s.locals[actor].RelayPublished?
    ensures var l := s.locals[actor];
      var r := RelayWriteBack(s.tables, l.token, l.copies, l.plan, RetryAt(c, l.now, l.plan.maxAttempt));
      && WriteBackOf(c, s.tables, l) == r
      && Apply(c, s, WriteBack(actor)).tables == if r.Some? then r.value else s.tables
  {
    hide RelayWriteBack, Observe;
  }

  /** The token guard lets a pass through exactly when its rows are untouched: the row
      with this token is the copy that the claim has handed out. */
  lemma {:induction false} HolderCommits(c: RelayConfig, s: System, l: Local)
    requires Inv(c, s) && l.RelayPublished? && LocalOk(s, c.maxAttempts, l)
    ensures RelayWriteBack(s.tables, l.token, l.copies, l.plan, RetryAt(c, l.now, l.plan.maxAttempt)).Some?
      <==> Untouched(s.tables, l.ids, l.copies)
  {
    var retryAt := RetryAt(c, l.now, l.plan.maxAttempt);
    if Untouched(s.tables, l.ids, l.copies) {
      hide Inv, Untouched, RelayWriteBack;
      ClaimedCopies(c, s, l.token, l.ids, l.copies);
      UntouchedCommits(s.tables, l.token, l.ids, l.copies, l.plan, retryAt);
    }
    if RelayWriteBack(s.tables, l.token, l.copies, l.plan, retryAt).Some? {
      hide Inv, Untouched, RelayWriteBack;
      GuardedIsUntouched(c, s, l);
    }
  }

  lemma {:induction false} GuardedIsUntouched(c: RelayConfig, s: System, l: Local)
    requires Inv(c, s) && l.RelayPublished? && LocalOk(s, c.maxAttempts, l)
    requires RelayWriteBack(s.tables, l.token, l.copies, l.plan, RetryAt(c, l.now, l.plan.maxAttempt)).Some?
    ensures Untouched(s.tables, l.ids, l.copies)
  {
    var retryAt := RetryAt(c, l.now, l.plan.maxAttempt);
    assert PlanDisjoint(l.plan) && forall x | x in l.plan.dead :: x in l.copies;
    assert forall id | id in l.ids ::
      id in l.copies && (id in l.plan.success || id in l.plan.dead || id in l.plan.retry);
    hide RelayWriteBack, PlanOk;
    RelayWriteBackEffect(s.tables, l.token, l.copies, l.plan, retryAt);
    forall id | id in l.ids ensures id in s.tables.outbox && s.tables.outbox[id] == l.copies[id] {
      assert Guard(s.tables.outbox[id], l.token);
      assert id in s.tables.outbox.Keys && id in s.tables.records.Keys;
      assert RowOk(s, c.maxAttempts, id);
      hide RelayWritten, Wf, Paired, HistoryOk, ClaimKnown;
    }
  }

  /** A committed pass finishes its rows and no others. */
  lemma {:induction false} HolderFinishes(c: RelayConfig, s: System, l: Local)
    requires l.RelayPublished? && LocalOk(s, c.maxAttempts, l) && Untouched(s.tables, l.ids, l.copies)
    requires RelayWriteBack(s.tables, l.token, l.copies, l.plan, RetryAt(c, l.now, l.plan.maxAttempt)).Some?
    ensures var retryAt := RetryAt(c, l.now, l.plan.maxAttempt);
      var t' := RelayWriteBack(s.tables, l.token, l.copies, l.plan, retryAt).value;
      && (forall id | id in l.ids :: id in t'.outbox && Finished(l.copies[id], t'.outbox[id], retryAt))
      && (forall id | id in s.tables.outbox && id !in l.ids :: id in t'.outbox && t'.outbox[id] == s.tables.outbox[id])
      && t'.outbox.Keys == s.tables.outbox.Keys
  {
    RelayWriteBackEffect(s.tables, l.token, l.copies, l.plan, RetryAt(c, l.now, l.plan.maxAttempt));
    hide RelayWriteBack;
  }

  /** The doublings fit in 64 bits, so the loop computes the intended delays. */
  predicate BackoffFits(c: RelayConfig) {
    Backoff.Fits(c.initialBackoff, c.maxBackoff)
  }

  /** What a committed pass means for a claimed row: an acknowledged one is PUBLISHED;
      another one waits again, no earlier than its own backoff, while it has attempts
      left, and otherwise is DEAD with its record out of WAIT. */
  ghost predicate RelayRowDone(c: RelayConfig, l: Local, acked: set<Id>, t': Tables, id: Id)
    requires l.RelayPublished?
  {
    && id in l.copies && id in t'.outbox && id in t'.records
    && var m, m' := l.copies[id], t'.outbox[id];
    && m'.attempts == m.attempts && m'.leaseToken == "" && m'.leaseUntil == None
    && (id in l.plan.success ==> m'.state == OutboxState.Published && m'.published && id in acked)
    && (id !in l.plan.success && m.attempts < c.maxAttempts ==>
          && m'.state == Pending
          && m'.availableAt == RetryAt(c, l.now, l.plan.maxAttempt)
          && (BackoffFits(c) ==>
                m'.availableAt >= l.now + Backoff.Delay(c.initialBackoff, c.maxBackoff, m.attempts)))
    && (id !in l.plan.success && m.attempts >= c.maxAttempts ==>
          m'.state == Dead && t'.records[id].status != Wait)
  }

  lemma {:induction false} RelayRowOutcome(
    c: RelayConfig, s: System, l: Local, t': Tables, id: Id)
    requires l.RelayPublished? && PlanOk(s, c.maxAttempts, l.ids, l.copies, l.plan)
    requires id in l.ids && id in l.copies && id in s.tables.outbox && id in s.tables.records
    requires s.tables.outbox[id] == l.copies[id] && RowOk(s, c.maxAttempts, id)
    requires RelayWritten(s.tables, t', l.token, l.plan, RetryAt(c, l.now, l.plan.maxAttempt))
    requires BackoffFits(c) && id in l.plan.retry ==>
      RetryAt(c, l.now, l.plan.maxAttempt)
        >= l.now + Backoff.Delay(c.initialBackoff, c.maxBackoff, l.copies[id].attempts)
    ensures RelayRowDone(c, l, s.acked, t', id)
  {
  }

  lemma {:induction false} RelayOutcome(c: RelayConfig, s: System, actor: Actor, id: Id)
    requires ValidConfig(c) && Inv(c, s) && actor in s.locals && s.locals[actor].RelayPublished?
    requires Untouched(s.tables, s.locals[actor].ids, s.locals[actor].copies) && id in s.locals[actor].ids
    ensures RelayRowDone(c, s.locals[actor], s.acked, Apply(c, s, WriteBack(actor)).tables, id)
  {
    hide Inv, RelayWriteBack, RelayWritten, RelayRowDone, RowOk, LocalOk, PlanOk, Apply, Untouched;
    var l := s.locals[actor];
    HolderRow(c, s, actor, id);
    if BackoffFits(c) && id in l.plan.retry {
      RetriesAreTimed(c, s, actor, id);
    }
    HolderCommits(c, s, l);
    HolderTables(c, s, actor);
    RelayWriteBackEffect(s.tables, l.token, l.copies, l.plan, RetryAt(c, l.now, l.plan.maxAttempt));
    RelayRowOutcome(c, s, l, Apply(c, s, WriteBack(actor)).tables, id);
  }

  /** The records of the failed ids move from WAIT to DISPATCH_FAILED; no other status
      changes. */
  ghost predicate FailedMoved(t: Tables, t': Tables, failed: seq<Id>) {
    forall id | id in t.records :: id in t'.records
      && FailedStatus(t.records[id].status, id in failed, t'.records[id].status)
  }

  predicate FailedStatus(before: Status, failed: bool, after: Status) {
    after == if before == Wait && failed then DispatchFailed else before
  }

  /** A committed pass moves the records of its dead rows only. */
  lemma {:induction false} RelayStatuses(c: RelayConfig, s: System, actor: Actor)
    requires Inv(c, s) && actor in s.locals && s.locals[actor].RelayPublished?
    requires Untouched(s.tables, s.locals[actor].ids, s.locals[actor].copies)
    ensures FailedMoved(s.tables, Apply(c, s, WriteBack(actor)).tables, s.locals[actor].plan.dead)
  {
    hide Inv, RelayWriteBack, LocalOk, PlanOk, Apply, Untouched, RelayWritten;
    var l := s.locals[actor];
    HolderPlan(c, s, actor);
    HolderCommits(c, s, l);
    HolderTables(c, s, actor);
    var retryAt := RetryAt(c, l.now, l.plan.maxAttempt);
    RelayWriteBackEffect(s.tables, l.token, l.copies, l.plan, retryAt);
    WrittenStatuses(s.tables, Apply(c, s, WriteBack(actor)).tables, l.token, l.plan, retryAt);
  }

  lemma {:induction false} HolderPlan(c: RelayConfig, s: System, actor: Actor)
    requires Inv(c, s) && actor in s.locals && s.locals[actor].RelayPublished?
    ensures var l := s.locals[actor];
      LocalOk(s, c.maxAttempts, l) && PlanDisjoint(l.plan) && forall x | x in l.plan.dead :: x in l.copies
  {
    assert LocalOk(s, c.maxAttempts, s.locals[actor]);
    hide Wf, Paired, HistoryOk, ClaimKnown, RowsOk;
  }

  lemma {:induction false} WrittenStatuses(t: Tables, t': Tables, token: string, plan: Plan, retryAt: Time)
    requires RelayWritten(t, t', token, plan, retryAt)
    ensures FailedMoved(t, t', plan.dead)
  {
    forall id | id in t.records ensures id in t'.records {
      assert id in t'.records.Keys;
    }
  }

  lemma {:induction false} HolderRow(c: RelayConfig, s: System, actor: Actor, id: Id)
    requires Inv(c, s) && actor in s.locals && s.locals[actor].RelayPublished?
    requires Untouched(s.tables, s.locals[actor].ids, s.locals[actor].copies) && id in s.locals[actor].ids
    ensures var l := s.locals[actor];
      && LocalOk(s, c.maxAttempts, l) && PlanOk(s, c.maxAttempts, l.ids, l.copies, l.plan)
      && PlanDisjoint(l.plan) && (forall x | x in l.plan.dead :: x in l.copies)
      && id in l.copies && id in s.tables.outbox && id in s.tables.records
      && s.tables.outbox[id] == l.copies[id] && RowOk(s, c.maxAttempts, id)
  {
    assert LocalOk(s, c.maxAttempts, s.locals[actor]);
    assert id in s.tables.outbox.Keys && id in s.tables.records.Keys;
    assert RowOk(s, c.maxAttempts, id);
    hide RowOk, Wf, Paired, HistoryOk, ClaimKnown;
  }

  /** In every reachable state, if the doublings fit in 64 bits: the retry time of a pass
      covers the backoff of each row it retries, because it is computed from the largest
      failed attempt. */
  lemma {:induction false} RetriesAreTimed(c: RelayConfig, s: System, actor: Actor, id: Id)
    requires ValidConfig(c) && Inv(c, s) && BackoffFits(c)
    requires actor in s.locals && s.locals[actor].RelayPublished? && id in s.locals[actor].plan.retry
    ensures var l := s.locals[actor];
      id in l.copies && RetryAt(c, l.now, l.plan.maxAttempt)
        >= l.now + Backoff.Delay(c.initialBackoff, c.maxBackoff, l.copies[id].attempts)
  {
    var l := s.locals[actor];
    assert LocalOk(s, c.maxAttempts, l);
    hide Inv;
    Backoff.DelayMonotone(c.initialBackoff, c.maxBackoff, l.copies[id].attempts, l.plan.maxAttempt);
    Backoff.FitsIsExact(c.initialBackoff, c.maxBackoff, l.plan.maxAttempt);
  }

  lemma {:induction false} LeasedHasAttempts(c: RelayConfig, s: System, id: Id)
    requires Inv(c, s) && id in s.tables.outbox && s.tables.outbox[id].state.Processing?
    ensures s.tables.outbox[id].attempts >= 1
  {
    assert id in s.tables.outbox.Keys && id in s.tables.records.Keys;
    assert RowOk(s, c.maxAttempts, id);
    assert s.tables.outbox[id].leaseToken in ClaimsOf(s.claims, id);
  }

  /** x has the largest attempt of the claimed rows that were not published. */
  ghost predicate LargestFailed(l: Local, x: Id)
    requires l.RelayPublished?
  {
    && x in l.ids && x !in l.plan.success && x in l.copies
    && forall y | y in l.ids && y !in l.plan.success && y in l.copies :: l.copies[y].attempts <= l.copies[x].attempts
  }

  /** The retry time of a pass is exact: its claim time plus the intended delay of the
      largest attempt that failed; for a single failed row, of its own attempt. */
  lemma {:induction false} RetryIsExact(c: RelayConfig, s: System, actor: Actor, id: Id)
    requires ValidConfig(c) && Inv(c, s) && BackoffFits(c) && actor in s.locals && s.locals[actor].RelayPublished?
    requires Untouched(s.tables, s.locals[actor].ids, s.locals[actor].copies) && id in s.locals[actor].plan.retry
    ensures var l, t' := s.locals[actor], Apply(c, s, WriteBack(actor)).tables;
      && id in t'.outbox && t'.outbox[id].state == Pending
      && exists x :: LargestFailed(l, x)
           && t'.outbox[id].availableAt == l.now + Backoff.Delay(c.initialBackoff, c.maxBackoff, l.copies[x].attempts)
    ensures var l, t' := s.locals[actor], Apply(c, s, WriteBack(actor)).tables;
      (forall x | x in l.ids && x !in l.plan.success :: x == id) ==>
        && id in l.copies && id in t'.outbox
        && t'.outbox[id].availableAt == l.now + Backoff.Delay(c.initialBackoff, c.maxBackoff, l.copies[id].attempts)
  {
    var l := s.locals[actor];
    var x := LargestExists(c, s, actor, id);
    hide Inv, Apply, Untouched, BackoffFits;
    RelayOutcome(c, s, actor, id);
    Backoff.FitsIsExact(c.initialBackoff, c.maxBackoff, l.plan.maxAttempt);
  }

  lemma {:induction false} LargestExists(c: RelayConfig, s: System, actor: Actor, id: Id) returns (x: Id)
    requires Inv(c, s) && actor in s.locals && s.locals[actor].RelayPublished?
    requires Untouched(s.tables, s.locals[actor].ids, s.locals[actor].copies) && id in s.locals[actor].plan.retry
    ensures var l := s.locals[actor];
      && LargestFailed(l, x) && l.copies[x].attempts == l.plan.maxAttempt
      && id in l.ids && id !in l.plan.success && id in l.copies && l.copies[id].attempts < c.maxAttempts
  {
    var l := s.locals[actor];
    assert LocalOk(s, c.maxAttempts, l);
    ClaimedCopies(c, s, l.token, l.ids, l.copies);
    LeasedHasAttempts(c, s, id);
    hide Inv, LocalOk;
    if l.plan.maxAttempt == 1 {
      x := id;
    } else {
      x :| (x in l.plan.retry || x in l.plan.dead) && x in l.copies && l.copies[x].attempts == l.plan.maxAttempt;
    }
  }

  ghost predicate ChunkDone(t: Tables, t': Tables, acked: set<Id>, r: RunResult) {
    && (forall id | id in r.success :: id in t.outbox && id in t'.outbox && id in acked
          && PatchedTo(t.outbox[id], t'.outbox[id], ToPublished))
    && (forall id | id in r.failed :: id in t.outbox && id in t'.outbox
          && PatchedTo(t.outbox[id], t'.outbox[id], ToDead)
          && id in t'.records && t'.records[id].status != Wait)
    && (forall id | id in t.outbox && id !in r.success && id !in r.failed ::
          id in t'.outbox && t'.outbox[id] == t.outbox[id])
  }

  /** A chunk write-back commits exactly when no relay, and no other call, has taken
      any of its rows out of PENDING; then acknowledged rows are PUBLISHED and failed
      rows DEAD with their records out of WAIT. Otherwise nothing changes. */
  lemma {:induction false} FastPathFencing(c: RelayConfig, s: System, actor: Actor)
    requires Inv(c, s) && actor in s.locals && s.locals[actor].ChunkPublished?
    ensures var r := s.locals[actor].result;
      var t' := Apply(c, s, WriteBack(actor)).tables;
      && (AllFree(s.tables, r) ==> ChunkDone(s.tables, t', s.acked, r))
      && (AllFree(s.tables, r) ==> FailedMoved(s.tables, t', r.failed))
      && (!AllFree(s.tables, r) ==> t' == s.tables)
      && (AllFree(s.tables, r) <==> WriteBackOf(c, s.tables, s.locals[actor]).Some?)
  {
    var l := s.locals[actor];
    assert LocalOk(s, c.maxAttempts, l);
    var t := ChunkWriteBack(s.tables, l.pending, l.result);
    if AllFree(s.tables, l.result) {
      FreeChunkCommits(s, l.pending, l.result);
    }
    hide Inv, LocalOk, ChunkDone, ChunkWriteBack, FailedMoved;
    if t.Some? {
      ChunkWriteBackEffect(s.tables, l.pending, l.result);
      assert AllFree(s.tables, l.result);
      hide ChunkWritten, AllFree;
      ChunkOutcome(c, s, t.value, l.pending, l.result);
      ChunkWritesFailed(c, s, t.value, l.pending, l.result);
      assert Apply(c, s, WriteBack(actor)).tables == t.value;
    }
  }

  lemma {:induction false} ChunkWritesFailed(
    c: RelayConfig, s: System, t': Tables, pending: seq<Record>, result: RunResult)
    requires LocalOk(s, c.maxAttempts, ChunkPublished(pending, result))
    requires ChunkWritten(s.tables, t', pending, result)
    ensures FailedMoved(s.tables, t', result.failed)
  {
    forall id | id in s.tables.records && s.tables.records[id].status == Wait
      ensures StatusFor(pending, id).Some? <==> id in result.failed
      ensures StatusFor(pending, id).Some? ==> StatusFor(pending, id).value == DispatchFailed
    {
      ChunkStatusFor(s, pending, result, id);
    }
    forall id | id in s.tables.records ensures id in t'.records {
      assert id in t'.records.Keys;
    }
    hide LocalOk;
  }

  lemma {:induction false} ChunkOutcome(c: RelayConfig, s: System, t': Tables, pending: seq<Record>, result: RunResult)
    requires Inv(c, s) && LocalOk(s, c.maxAttempts, ChunkPublished(pending, result))
    requires ChunkWritten(s.tables, t', pending, result)
    ensures ChunkDone(s.tables, t', s.acked, result)
  {
    assert forall id | id in result.success :: id in s.acked;
    hide Inv, LocalOk, RowOk, EngineWrite, ChunkWritten, ChunkDone;
    ChunkRows(c, s, t', pending, result);
    WrittenIsDone(s, t', pending, result);
  }

  lemma {:induction false} WrittenIsDone(s: System, t': Tables, pending: seq<Record>, result: RunResult)
    requires ChunkWritten(s.tables, t', pending, result)
    requires forall id | id in result.success :: id in s.acked
    requires forall id | id in result.failed :: id in t'.records && t'.records[id].status != Wait
    ensures ChunkDone(s.tables, t', s.acked, result)
  {
    forall id | id in s.tables.outbox ensures id in t'.outbox {
      assert id in t'.outbox.Keys;
    }
    hide ChunkStatus;
  }

  ghost predicate AllFree(t: Tables, r: RunResult) {
    forall id | id in r.success || id in r.failed :: id in t.outbox && t.outbox[id].state.Pending?
  }

  lemma {:induction false} FreeChunkCommits(s: System, pending: seq<Record>, result: RunResult)
    requires forall r | r in pending :: MarkedOk(s, r, result)
    requires AllFree(s.tables, result)
    requires forall id | id in result.success :: id !in result.failed
    ensures ChunkWriteBack(s.tables, pending, result).Some?
  {
  }

  /** The message is still PENDING and, if the publish failed, the record still in WAIT. */
  predicate SingleFree(t: Tables, id: Id, confirmed: bool) {
    && id in t.outbox && id in t.records
    && t.outbox[id].state.Pending? && (confirmed || t.records[id].status.Wait?)
  }

  /** One message is PUBLISHED with an acknowledgement, or DEAD with its record
      DISPATCH_FAILED; nothing else has changed. */
  ghost predicate SingleDone(t: Tables, t': Tables, acked: set<Id>, id: Id, confirmed: bool) {
    && id in t.outbox && id in t.records && (confirmed ==> id in acked)
    && t'.outbox == t.outbox[id := Patched(t.outbox[id], if confirmed then ToPublished else ToDead)]
    && t'.records == if confirmed then t.records else t.records[id := t.records[id].(status := DispatchFailed)]
  }

  lemma {:induction false} FreeSingleCommits(t: Tables, id: Id, confirmed: bool)
    requires id in t.records && id in t.outbox && t.records[id].executionId == id
    ensures SingleWriteBack(t, id, confirmed).Some? <==> SingleFree(t, id, confirmed)
  {
    if SingleWriteBack(t, id, confirmed).Some? {
      SingleWriteBackEffect(t, id, confirmed);
    }
  }

  /** A single write-back commits exactly when no relay, and no other call, has taken its
      message out of PENDING and a failed publish finds the record in WAIT; otherwise
      nothing changes. */
  lemma {:induction false} SingleFencing(c: RelayConfig, s: System, actor: Actor)
    requires Inv(c, s) && actor in s.locals && s.locals[actor].SinglePublished?
    ensures var l := s.locals[actor];
      var t' := Apply(c, s, WriteBack(actor)).tables;
      && (SingleFree(s.tables, l.record.executionId, l.confirmed) ==>
            SingleDone(s.tables, t', s.acked, l.record.executionId, l.confirmed))
      && (!SingleFree(s.tables, l.record.executionId, l.confirmed) ==> t' == s.tables)
      && (SingleFree(s.tables, l.record.executionId, l.confirmed) <==> WriteBackOf(c, s.tables, l).Some?)
  {
    var id, confirmed := s.locals[actor].record.executionId, s.locals[actor].confirmed;
    StoredSingle(c, s, actor);
    hide Inv, SingleWriteBack, SingleFree, Observe;
    FreeSingleCommits(s.tables, id, confirmed);
    if SingleWriteBack(s.tables, id, confirmed).Some? {
      SingleWriteBackEffect(s.tables, id, confirmed);
    }
  }

  lemma {:induction false} StoredSingle(c: RelayConfig, s: System, actor: Actor)
    requires Inv(c, s) && actor in s.locals && s.locals[actor].SinglePublished?
    ensures var id := s.locals[actor].record.executionId;
      && id in s.tables.records && id in s.tables.outbox && s.tables.records[id].executionId == id
      && (s.locals[actor].confirmed ==> id in s.acked)
  {
    var id := s.locals[actor].record.executionId;
    assert LocalOk(s, c.maxAttempts, s.locals[actor]);
    assert RecordIndexed(s.tables, id) && id in s.tables.records.Keys && id in s.tables.outbox.Keys;
  }

  /** An untouched claimed row is PROCESSING under the claim's token. */
  lemma {:induction false} ClaimedCopies(
    c: RelayConfig, s: System, token: string, ids: seq<Id>, copies: map<Id, Message>)
    requires Inv(c, s) && ClaimedOk(s, token, ids, copies) && Untouched(s.tables, ids, copies)
    ensures forall id | id in ids ::
      id in s.tables.records && id in s.tables.outbox && Guard(s.tables.outbox[id], token)
  {
  }

  lemma {:induction false} UntouchedCommits(
    t: Tables, token: string, ids: seq<Id>, copies: map<Id, Message>, plan: Plan, retryAt: Time)
    requires forall id | id in ids :: id in t.records && id in t.outbox && Guard(t.outbox[id], token)
    requires PlanDisjoint(plan) && forall x | x in plan.dead :: x in copies
    requires forall id | id in plan.success || id in plan.retry || id in plan.dead :: id in ids
    ensures RelayWriteBack(t, token, copies, plan, retryAt).Some?
  {
  }

  /** A claim takes a PENDING row only once its grace or backoff is over, and a PROCESSING
      row only once its lease has run out; its token is new. */
  lemma {:induction false} LeaseIsExclusive(c: RelayConfig, s: System, step: Step, id: Id)
    requires Inv(c, s) && step.Claim? && Enabled(c, s, step) && id in step.ids
    ensures id in s.tables.outbox && !(s.tables.outbox[id].state.Published? || s.tables.outbox[id].state.Dead?)
    ensures s.tables.outbox[id].state == Pending ==> s.tables.outbox[id].availableAt <= step.now <= s.clock
    ensures s.tables.outbox[id].state == Processing ==>
      s.tables.outbox[id].leaseUntil.Some? && s.tables.outbox[id].leaseUntil.value <= step.now <= s.clock
    ensures forall token | token in s.claims :: token != step.token
    ensures var m, m' := s.tables.outbox[id], Apply(c, s, step).tables.outbox[id];
      m'.leaseToken == step.token && m'.leaseUntil == Some(step.now + c.leaseDuration) && m'.attempts == m.attempts + 1
  {
  }

  function TokenOf(l: Local): Option<string> {
    match l
    case RelayClaimed(token, _, _, _) => Some(token)
    case RelayPublished(token, _, _, _, _) => Some(token)
    case _ => None
  }

  /** No two relays hold the same token. */
  ghost predicate HoldersDiffer(s: System) {
    forall a, b |
      a in s.locals && b in s.locals && TokenOf(s.locals[a]).Some? && TokenOf(s.locals[a]) == TokenOf(s.locals[b]) ::
      a == b
  }

  lemma {:induction false} StepKeepsHolders(c: RelayConfig, s: System, step: Step)
    requires Inv(c, s) && HoldersDiffer(s) && Enabled(c, s, step)
    ensures HoldersDiffer(Apply(c, s, step))
  {
    forall a | a in s.locals ensures TokenOf(s.locals[a]).Some? ==> TokenOf(s.locals[a]).value in s.claims {
      assert LocalOk(s, c.maxAttempts, s.locals[a]);
    }
    hide Inv, LocalOk;
    FromClaims(c, s, step);
  }

  lemma {:induction false} FromClaims(c: RelayConfig, s: System, step: Step)
    requires HoldersDiffer(s) && Enabled(c, s, step)
    requires forall a | a in s.locals && TokenOf(s.locals[a]).Some? :: TokenOf(s.locals[a]).value in s.claims
    ensures HoldersDiffer(Apply(c, s, step))
  {
    hide PersistChunk, PersistSingle, Observe, WriteBackOf, ReplayChunk, ClaimSelection;
    hide HonestResult, MakePlan, MarkFailed, Complete, ClaimRows, Copies, IdsOf;
  }

  lemma {:induction false} HoldersDifferInRun(c: RelayConfig, s: System, steps: seq<Step>)
    requires ValidConfig(c) && Inv(c, s) && HoldersDiffer(s) && ValidRun(c, s, steps)
    ensures HoldersDiffer(Run(c, s, steps))
    decreases |steps|
  {
    if steps != [] {
      StepKeepsInv(c, s, steps[0]);
      StepKeepsHolders(c, s, steps[0]);
      HoldersDifferInRun(c, Apply(c, s, steps[0]), steps[1..]);
    }
  }

  /** In every reachable state a PROCESSING row is the very copy its one claim
      handed out, and at most one relay holds that claim. */
  lemma {:induction false} OneClaimPerToken(c: RelayConfig, steps: seq<Step>, id: Id)
    requires ValidConfig(c) && ValidRun(c, INITIAL, steps)
    requires id in Run(c, INITIAL, steps).tables.outbox && Run(c, INITIAL, steps).tables.outbox[id].state.Processing?
    ensures var s := Run(c, INITIAL, steps);
      var m := s.tables.outbox[id];
      && m.leaseToken in s.claims && id in s.claims[m.leaseToken] && s.claims[m.leaseToken][id] == m
      && (forall token | token in s.claims && id in s.claims[token] && s.claims[token][id].leaseToken == m.leaseToken ::
            token == m.leaseToken)
      && HoldersDiffer(s)
  {
    ReachableInv(c, steps);
    var s := Run(c, INITIAL, steps);
    assert id in s.tables.records.Keys && id in s.tables.outbox.Keys;
    assert RowOk(s, c.maxAttempts, id);
    forall token | token in s.claims && id in s.claims[token] ensures s.claims[token][id].leaseToken == token {
      assert ClaimKnown(s, token);
    }
    InitialInv(c);
    HoldersDifferInRun(c, INITIAL, steps);
  }

  // ---- statuses over time ------------------------------------------------------------

  /** One step moves a stored status along an edge of the status machine or leaves
      it; only callbacks write anything but DISPATCH_FAILED, and the engine writes
      DISPATCH_FAILED only over WAIT, whatever status its copies carry. */
  lemma {:induction false} StatusPerStep(c: RelayConfig, s: System, step: Step, id: Id)
    requires ValidConfig(c) && Inv(c, s) && Enabled(c, s, step) && id in s.tables.records
    ensures var t' := Apply(c, s, step).tables;
      && id in t'.records
      && (var before, after := s.tables.records[id].status, t'.records[id].status;
          && (after == before || CanTransitTo(before, after))
          && (after != before ==>
                || (before == Wait && after == DispatchFailed && step.WriteBack?)
                || (after != DispatchFailed && step.Callback?)))
  {
    assert Wf(s.tables);
    hide Inv;
    match step
    case BeginSingle(actor, requestId, cs, version, at) =>
      SingleIsChunk(s.tables, requestId, cs, version, at);
      hide PersistChunk, PersistSingle, Wf;
      BeginKeepsRecords(c, s, actor, requestId, [cs], version, at, true);
    case BeginChunk(actor, requestId, cases, version, at) =>
      hide PersistChunk, Wf;
      BeginKeepsRecords(c, s, actor, requestId, cases, version, at, false);
    case WriteBack(actor) =>
      WriteBackKeepsInv(c, s, actor);
      hide Wf, SameShape;
      if WriteBackOf(c, s.tables, s.locals[actor]).Some? {
        assert EngineWrite(s.tables, Apply(c, s, step).tables);
        EngineWriteOnRecord(s.tables, Apply(c, s, step).tables, id);
      }
    case _ =>
      hide Wf;
  }

  lemma {:induction false} EngineWriteOnRecord(t: Tables, t': Tables, id: Id)
    requires EngineWrite(t, t') && id in t.records
    ensures id in t'.records
    ensures t'.records[id].status == t.records[id].status
      || (t.records[id].status == Wait && t'.records[id].status == DispatchFailed)
  {
  }

  lemma {:induction false} BeginKeepsRecords(
    c: RelayConfig, s: System, actor: Actor, requestId: string, cases: seq<Case>, version: string, at: Time,
    single: bool)
    requires Inv(c, s) && requestId != ""
    ensures RecordsKept(s.tables,
      BeginWith(s, actor, version, PersistChunk(s.tables, requestId, cases, version, at), single).tables)
  {
    assert Wf(s.tables) && Paired(s.tables);
    hide Inv, Wf, Paired, PersistChunk;
    var t', p := PersistChunkEffect(s.tables, requestId, cases, version, at);
    assert RecordsKept(s.tables, t');
    hide PersistedOk, RecordsKept;
  }

  /** Each record's stored history is a path of the status machine from WAIT to the
      stored status. */
  lemma {:induction false} HistoryIsPath(c: RelayConfig, steps: seq<Step>, id: Id)
    requires ValidConfig(c) && ValidRun(c, INITIAL, steps)
    requires id in Run(c, INITIAL, steps).tables.records
    ensures var s := Run(c, INITIAL, steps);
      && id in s.history && StatusPath(s.history[id]) && |s.history[id]| <= 3
      && s.history[id][|s.history[id]| - 1] == s.tables.records[id].status
  {
    ReachableInv(c, steps);
    var s := Run(c, INITIAL, steps);
    assert HistoryOk(s, id);
    HistoriesAreShort(s.history[id]);
  }

  /** Terminal statuses, and PUBLISHED and DEAD messages, never change again; a
      request and case keep their execution id for ever. */
  ghost predicate Settled(t: Tables, t': Tables) {
    && (forall id | id in t.records && IsTerminal(t.records[id].status) ::
          id in t'.records && t'.records[id].status == t.records[id].status)
    && (forall id | id in t.outbox && (t.outbox[id].state.Published? || t.outbox[id].state.Dead?) ::
          id in t'.outbox && t'.outbox[id] == t.outbox[id])
    && (forall k | k in t.byRequest :: k in t'.byRequest && t'.byRequest[k] == t.byRequest[k])
  }

  lemma {:induction false} SingleSettled(t: Tables, id: Id, confirmed: bool)
    requires id in t.records && id in t.outbox && t.records[id].executionId == id
    requires SingleWriteBack(t, id, confirmed).Some?
    ensures Settled(t, SingleWriteBack(t, id, confirmed).value)
  {
  }

  lemma {:induction false} ChunkSettled(t: Tables, pending: seq<Record>, result: RunResult)
    requires ChunkWriteBack(t, pending, result).Some?
    ensures Settled(t, ChunkWriteBack(t, pending, result).value)
  {
  }

  lemma {:induction false} RelaySettled(t: Tables, token: string, copies: map<Id, Message>, plan: Plan, retryAt: Time)
    requires PlanDisjoint(plan) && forall x | x in plan.dead :: x in copies
    requires RelayWriteBack(t, token, copies, plan, retryAt).Some?
    ensures Settled(t, RelayWriteBack(t, token, copies, plan, retryAt).value)
  {
  }

  lemma {:induction false} WriteBackSettled(c: RelayConfig, s: System, actor: Actor)
    requires Inv(c, s) && Enabled(c, s, WriteBack(actor))
    ensures Settled(s.tables, Apply(c, s, WriteBack(actor)).tables)
  {
    assert LocalOk(s, c.maxAttempts, s.locals[actor]);
    var t := WriteBackOf(c, s.tables, s.locals[actor]);
    hide Settled, RelayWriteBack, ChunkWriteBack, SingleWriteBack;
    if t.Some? {
      match s.locals[actor]
      case SinglePublished(record, confirmed) =>
        var id := record.executionId;
        assert RecordIndexed(s.tables, id) && id in s.tables.records.Keys && id in s.tables.outbox.Keys;
        SingleSettled(s.tables, id, confirmed);
      case ChunkPublished(pending, result) =>
        ChunkSettled(s.tables, pending, result);
      case RelayPublished(token, now, ids, copies, plan) =>
        RelaySettled(s.tables, token, copies, plan, RetryAt(c, now, plan.maxAttempt));
    }
  }

  lemma {:induction false} BeginSettled(t: Tables, requestId: string, cases: seq<Case>, version: string, at: Time)
    requires Wf(t) && Paired(t) && requestId != ""
    ensures var r := PersistChunk(t, requestId, cases, version, at); r.Some? && Settled(t, r.value.0)
  {
    var t', p := PersistChunkEffect(t, requestId, cases, version, at);
  }

  lemma {:induction false} ClaimSettled(t: Tables, ids: seq<Id>, until: Time, token: string)
    requires forall id | id in ids :: id in t.outbox && (t.outbox[id].state.Pending? || t.outbox[id].state.Processing?)
    ensures Settled(t, t.(outbox := ClaimRows(t.outbox, ids, until, token)))
  {
  }

  lemma {:induction false} BeginStepSettled(
    c: RelayConfig, s: System, actor: Actor, requestId: string, cases: seq<Case>, version: string, at: Time,
    single: bool)
    requires Inv(c, s) && requestId != ""
    ensures Settled(s.tables,
      BeginWith(s, actor, version, PersistChunk(s.tables, requestId, cases, version, at), single).tables)
  {
    assert Wf(s.tables) && Paired(s.tables);
    hide Inv, Wf, Paired;
    BeginSettled(s.tables, requestId, cases, version, at);
    hide PersistChunk, Settled;
  }

  lemma {:induction false} CallbackSettled(t: Tables, id: Id, next: Status)
    requires id in t.records && CanTransitTo(t.records[id].status, next)
    ensures Settled(t, t.(records := t.records[id := t.records[id].(status := next)]))
  {
  }

  lemma {:induction false} NothingUnsettled(t: Tables)
    ensures Settled(t, t)
  {
  }

  lemma {:induction false} ClaimStepSettled(c: RelayConfig, s: System, step: Step)
    requires step.Claim? && Enabled(c, s, step)
    ensures Settled(s.tables, Apply(c, s, step).tables)
  {
    SelectionDistinct(s.tables.outbox, step.now, EffectiveLimit(c.batchSize), step.locked, step.ids);
    ClaimSettled(s.tables, step.ids, step.now + c.leaseDuration, step.token);
    hide ClaimSelection, Settled;
  }

  lemma {:induction false} StepSettled(c: RelayConfig, s: System, step: Step)
    requires Inv(c, s) && Enabled(c, s, step)
    ensures Settled(s.tables, Apply(c, s, step).tables)
  {
    assert Wf(s.tables);
    hide Inv;
    match step
    case BeginSingle(actor, requestId, cs, version, at) =>
      SingleIsChunk(s.tables, requestId, cs, version, at);
      hide PersistChunk, PersistSingle, Wf, Settled;
      BeginStepSettled(c, s, actor, requestId, [cs], version, at, true);
    case BeginChunk(actor, requestId, cases, version, at) =>
      hide PersistChunk, Wf, Settled;
      BeginStepSettled(c, s, actor, requestId, cases, version, at, false);
    case WriteBack(actor) =>
      hide Wf, Settled;
      WriteBackSettled(c, s, actor);
    case Claim(actor, now, token, locked, ids) =>
      hide Wf, Apply, Settled;
      ClaimStepSettled(c, s, step);
    case Callback(id, next) =>
      hide Wf, Settled, Observe;
      CallbackSettled(s.tables, id, next);
    case _ =>
      hide Wf, Settled;
      NothingUnsettled(s.tables);
  }

  lemma {:induction false} SettledForEver(c: RelayConfig, s: System, steps: seq<Step>)
    requires ValidConfig(c) && Inv(c, s) && ValidRun(c, s, steps)
    ensures Settled(s.tables, Run(c, s, steps).tables)
    decreases |steps|
  {
    if steps != [] {
      StepKeepsInv(c, s, steps[0]);
      StepSettled(c, s, steps[0]);
      SettledForEver(c, Apply(c, s, steps[0]), steps[1..]);
    }
  }
}

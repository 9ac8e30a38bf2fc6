/** The invariant of the protocol and the proof that every step keeps it. */
module Invariant {
  import opened Domain
  import opened BatchResult
  import opened Store
  import opened StoreEffects
  import opened Relay
  import opened Protocol

  /** The lease tokens whose claim took this row. */
  function ClaimsOf(claims: map<string, map<Id, Message>>, id: Id): set<string> {
    set token | token in claims && id in claims[token]
  }

  /** What links a message to its record, its claims and the broker. */
  ghost predicate RowOk(s: System, max: int, id: Id)
    requires id in s.tables.outbox && id in s.tables.records
  {
    var m := s.tables.outbox[id];
    var status := s.tables.records[id].status;
    && m.attempts == |ClaimsOf(s.claims, id)|
    && (m.state.Pending? ==> m.attempts < max && m.leaseToken == "" && m.leaseUntil == None && !m.published)
    && (m.state.Processing? ==>
          && m.leaseToken in s.claims && id in s.claims[m.leaseToken] && s.claims[m.leaseToken][id] == m
          && m.leaseUntil.Some? && !m.published)
    && (m.state.Published? ==> id in s.acked && m.published)
    && (m.state.Dead? ==> status != Wait && !m.published)
    && (status == DispatchFailed ==> m.state.Dead?)
  }

  ghost predicate RowsOk(s: System, max: int)
    requires s.tables.records.Keys == s.tables.outbox.Keys
  {
    forall id | id in s.tables.outbox :: RowOk(s, max, id)
  }

  ghost predicate HistoryOk(s: System, id: Id)
    requires id in s.tables.records
  {
    && id in s.history && StatusPath(s.history[id])
    && s.history[id][|s.history[id]| - 1] == s.tables.records[id].status
  }

  /** A read-back record may be stale, but only in one direction: a status other
      than WAIT has been left behind by the stored row too. */
  ghost predicate CopyOk(s: System, r: Record) {
    && r.executionId in s.tables.records
    && (r.status != Wait ==> s.tables.records[r.executionId].status != Wait)
  }

  ghost predicate PendingOk(s: System, r: Record) {
    CopyOk(s, r) && r.status != DispatchFailed
  }

  /** After the publish a copy may also be DISPATCH_FAILED because it was just marked. */
  ghost predicate MarkedOk(s: System, r: Record, result: RunResult) {
    && r.executionId in s.tables.records
    && (r.status != Wait && r.status != DispatchFailed ==> s.tables.records[r.executionId].status != Wait)
    && (r.status == DispatchFailed ==> r.executionId in result.failed)
  }

  ghost predicate ClaimedOk(s: System, token: string, ids: seq<Id>, copies: map<Id, Message>) {
    && token != "" && token in s.claims && s.claims[token] == copies
    && Distinct(ids) && (forall id :: id in ids <==> id in copies)
  }

  ghost predicate PlanOk(s: System, max: int, ids: seq<Id>, copies: map<Id, Message>, plan: Plan) {
    && (forall id | id in plan.success :: id in ids && id in s.acked)
    && (forall id | id in plan.retry :: id in ids && id in copies && copies[id].attempts < max
          && copies[id].attempts <= plan.maxAttempt)
    && (forall id | id in plan.dead :: id in ids && id in copies && copies[id].attempts >= max)
    && (forall id | id in ids :: id in plan.success || id in plan.retry || id in plan.dead)
    && (forall id | id in plan.success :: id !in plan.retry && id !in plan.dead)
    && (forall id | id in plan.retry :: id !in plan.dead)
    && LargestOk(copies, plan)
  }

  /** The attempt that sets the backoff is the largest of the rows to retry or to kill. */
  ghost predicate LargestOk(copies: map<Id, Message>, plan: Plan) {
    && plan.maxAttempt >= 1
    && (forall id | (id in plan.retry || id in plan.dead) && id in copies :: copies[id].attempts <= plan.maxAttempt)
    && (plan.maxAttempt == 1
        || exists id :: (id in plan.retry || id in plan.dead) && id in copies && copies[id].attempts == plan.maxAttempt)
  }

  ghost predicate LocalOk(s: System, max: int, l: Local) {
    match l
    case SinglePersisted(record) => record.executionId in s.tables.records
    case SinglePublished(record, confirmed) =>
      record.executionId in s.tables.records && (confirmed ==> record.executionId in s.acked)
    case ChunkPersisted(pending) => forall r | r in pending :: PendingOk(s, r)
    case ChunkPublished(pending, result) =>
      && (forall r | r in pending :: MarkedOk(s, r, result))
      && (forall id | id in result.failed :: exists r :: r in pending && r.executionId == id && r.status != Wait)
      && (forall id | id in result.success :: id in s.acked && id !in result.failed)
    case RelayClaimed(token, now, ids, copies) => ClaimedOk(s, token, ids, copies)
    case RelayPublished(token, now, ids, copies, plan) =>
      ClaimedOk(s, token, ids, copies) && PlanOk(s, max, ids, copies, plan)
  }

  ghost predicate Inv(c: RelayConfig, s: System) {
    && Wf(s.tables) && Paired(s.tables)
    && RowsOk(s, c.maxAttempts)
    && (forall id | id in s.tables.records :: HistoryOk(s, id))
    && (forall actor | actor in s.locals :: LocalOk(s, c.maxAttempts, s.locals[actor]))
    && (forall id | id in s.history :: id in s.tables.records)
    && "" !in s.claims
    && (forall token | token in s.claims :: ClaimKnown(s, token))
  }

  ghost predicate ClaimKnown(s: System, token: string)
    requires token in s.claims
  {
    forall id | id in s.claims[token] ::
      id in s.tables.outbox && s.claims[token][id].state.Processing? && s.claims[token][id].leaseToken == token
  }

  lemma InitialInv(c: RelayConfig)
    ensures Inv(c, INITIAL)
  {
  }

  // ---- what other actors may do to an actor's copies -----------------------------

  ghost predicate Later(s: System, s': System) {
    && (forall id | id in s.tables.records :: id in s'.tables.records
          && (s.tables.records[id].status != Wait ==> s'.tables.records[id].status != Wait))
    && s.acked <= s'.acked
    && (forall token | token in s.claims :: token in s'.claims && s'.claims[token] == s.claims[token])
  }

  lemma {:induction false} LocalStable(s: System, s': System, max: int, l: Local)
    requires LocalOk(s, max, l) && Later(s, s')
    ensures LocalOk(s', max, l)
  {
  }

  lemma {:induction false} LocalsStable(s: System, s': System, max: int)
    requires forall actor | actor in s.locals :: LocalOk(s, max, s.locals[actor])
    requires Later(s, s')
    ensures forall actor | actor in s.locals :: LocalOk(s', max, s.locals[actor])
  {
  }

  /** A stored status moves along an edge of the status machine or stays. */
  ghost predicate StatusStep(t: Tables, t': Tables, id: Id)
    requires id in t.records
  {
    && id in t'.records
    && (t'.records[id].status == t.records[id].status || CanTransitTo(t.records[id].status, t'.records[id].status))
  }

  lemma {:induction false} HistoriesKept(s: System, t': Tables)
    requires forall id | id in s.tables.records :: HistoryOk(s, id)
    requires forall id | id in s.tables.records :: StatusStep(s.tables, t', id)
    requires forall id | id in t'.records && id !in s.tables.records :: t'.records[id].status == Wait
    requires forall id | id in s.history :: id in s.tables.records
    ensures forall id | id in t'.records :: HistoryOk(Commit(s, t'), id)
    ensures forall id | id in Commit(s, t').history :: id in t'.records
  {
  }

  // ---- phase one -------------------------------------------------------------------

  /** Some read-back message of the chunk in one of the given states has this id. */
  ghost predicate ReadIn(p: Persisted, id: Id, states: set<OutboxState>)
    requires |p.records| == |p.messages|
  {
    exists i :: 0 <= i < |p.records| && p.records[i].executionId == id && p.messages[i].state in states
  }

  ghost predicate ReadPending(p: Persisted, r: Record)
    requires |p.records| == |p.messages|
  {
    exists i :: 0 <= i < |p.records| && p.records[i] == r && p.messages[i].state.Pending?
  }

  lemma {:induction false} ReplayOrigins(p: Persisted)
    requires |p.records| == |p.messages|
    ensures forall r | r in ReplaySplit(p).pending :: ReadPending(p, r)
    ensures forall id | id in ReplaySplit(p).failed :: ReadIn(p, id, {Dead})
    ensures forall id | id in ReplaySplit(p).success :: ReadIn(p, id, {OutboxState.Published, Processing})
    decreases |p.records|
  {
    if p.records != [] {
      var n := |p.records| - 1;
      var q := Persisted(p.records[..n], p.messages[..n]);
      ReplayOrigins(q);
      forall r | r in ReplaySplit(p).pending ensures ReadPending(p, r) {
        if r in ReplaySplit(q).pending {
          assert ReadPending(q, r);
          var i :| 0 <= i < n && q.records[i] == r && q.messages[i].state.Pending?;
          assert p.records[i] == r && p.messages[i].state.Pending?;
        }
      }
      forall id, states | ReadIn(q, id, states) ensures ReadIn(p, id, states) {
        var i :| 0 <= i < n && q.records[i].executionId == id && q.messages[i].state in states;
        assert p.records[i].executionId == id && p.messages[i].state in states;
      }
    }
  }

  lemma {:induction false} RowsAfterPersist(
    c: RelayConfig, s: System, t': Tables, p: Persisted, requestId: string, cases: seq<Case>, at: Time)
    requires Inv(c, s) && ValidConfig(c) && PersistedOk(s.tables, t', p, requestId, cases, at)
    ensures RowsOk(Commit(s, t'), c.maxAttempts)
  {
  }

  /** What the replay leaves pending are copies of stored records of PENDING messages. */
  lemma {:induction false} PendingPersisted(
    s: System, max: int, t: Tables, p: Persisted, requestId: string, cases: seq<Case>)
    requires s.tables == t && ReadBack(t, p, requestId, cases)
    requires forall id | id in t.outbox :: id in t.records && RowOk(s, max, id)
    ensures |p.records| == |p.messages| && forall r | r in ReplaySplit(p).pending :: PendingOk(s, r)
  {
    ReplayOrigins(p);
    forall r | r in ReplaySplit(p).pending ensures PendingOk(s, r) {
      assert ReadPending(p, r);
      var i :| 0 <= i < |p.records| && p.records[i] == r && p.messages[i].state.Pending?;
      assert ReadBackAt(t, p.records[i], p.messages[i], (requestId, cases[i].caseId));
      assert RowOk(s, max, r.executionId);
    }
  }

  lemma {:induction false} CommitPersisted(
    c: RelayConfig, s: System, t': Tables, p: Persisted, requestId: string, cases: seq<Case>, at: Time)
    requires Inv(c, s) && ValidConfig(c) && PersistedOk(s.tables, t', p, requestId, cases, at)
    ensures Inv(c, Commit(s, t'))
    ensures |p.records| == |p.messages|
    ensures forall r | r in ReplaySplit(p).pending :: PendingOk(Commit(s, t'), r)
  {
    var s' := Commit(s, t');
    RowsAfterPersist(c, s, t', p, requestId, cases, at);
    forall id | id in t'.outbox ensures id in t'.records && RowOk(s', c.maxAttempts, id) {
      assert id in t'.outbox.Keys && id in t'.records.Keys;
    }
    forall id | id in t'.records && id !in s.tables.records ensures t'.records[id].status == Wait {
      assert FreshRow(t', id, at);
    }
    hide RowOk, LocalOk, HistoryOk, FreshRow, ReadBack, ReplaySplit;
    forall id | id in s.tables.outbox ensures id in t'.outbox {
      assert s.tables.outbox[id] == t'.outbox[id];
    }
    HistoriesKept(s, t');
    LocalsStable(s, s', c.maxAttempts);
    PendingPersisted(s', c.maxAttempts, t', p, requestId, cases);
  }

  lemma {:induction false} WithLocal(c: RelayConfig, s: System, actor: Actor, l: Local)
    requires Inv(c, s) && LocalOk(s, c.maxAttempts, l)
    ensures Inv(c, s.(locals := s.locals[actor := l]))
  {
    var s' := s.(locals := s.locals[actor := l]);
    forall id | id in s.tables.outbox ensures RowOk(s', c.maxAttempts, id) {
      assert RowOk(s, c.maxAttempts, id);
    }
    forall id | id in s.tables.records ensures HistoryOk(s', id) {
      assert HistoryOk(s, id);
    }
    LocalsStable(s, s', c.maxAttempts);
    LocalStable(s, s', c.maxAttempts, l);
  }

  lemma {:induction false} WithoutLocal(c: RelayConfig, s: System, actor: Actor)
    requires Inv(c, s)
    ensures Inv(c, s.(locals := s.locals - {actor}))
  {
    var s' := s.(locals := s.locals - {actor});
    forall id | id in s.tables.outbox ensures RowOk(s', c.maxAttempts, id) {
      assert RowOk(s, c.maxAttempts, id);
    }
    forall id | id in s.tables.records ensures HistoryOk(s', id) {
      assert HistoryOk(s, id);
    }
    LocalsStable(s, s', c.maxAttempts);
  }

  function Started(s: System, actor: Actor, pending: seq<Record>, single: bool): System
    requires pending != []
  {
    s.(locals := s.locals[actor := if single then SinglePersisted(pending[0]) else ChunkPersisted(pending)])
  }

  lemma {:induction false} StartedKeepsInv(c: RelayConfig, s: System, actor: Actor, pending: seq<Record>, single: bool)
    requires Inv(c, s) && pending != [] && forall r | r in pending :: PendingOk(s, r)
    ensures Inv(c, Started(s, actor, pending, single))
  {
    assert PendingOk(s, pending[0]);
    WithLocal(c, s, actor, if single then SinglePersisted(pending[0]) else ChunkPersisted(pending));
  }

  lemma {:induction false} InvTables(c: RelayConfig, s: System)
    requires Inv(c, s)
    ensures Wf(s.tables) && Paired(s.tables)
  {
  }

  lemma {:induction false} BeginKeepsInv(
    c: RelayConfig, s: System, actor: Actor, requestId: string, cases: seq<Case>, version: string, at: Time,
    single: bool)
    requires Inv(c, s) && ValidConfig(c) && requestId != ""
    ensures Inv(c, BeginWith(s, actor, version, PersistChunk(s.tables, requestId, cases, version, at), single))
  {
    hide Inv, PersistedOk, PersistChunk, Wf, Paired, PendingOk, ReplaySplit, VersionsMatch;
    InvTables(c, s);
    var t', p := PersistChunkEffect(s.tables, requestId, cases, version, at);
    CommitPersisted(c, s, t', p, requestId, cases, at);
    if VersionsMatch(p, version) && ReplaySplit(p).pending != [] {
      StartedKeepsInv(c, Commit(s, t'), actor, ReplaySplit(p).pending, single);
    }
  }

  // ---- phase two --------------------------------------------------------------------

  lemma {:induction false} PublishedLocal(c: RelayConfig, s: System, l: Local, raw: RunResult, acks: set<Id>)
    requires l.SinglePersisted? || l.ChunkPersisted? || l.RelayClaimed?
    requires LocalOk(s, c.maxAttempts, l) && HonestResult(TaskIds(l), raw, acks)
    ensures LocalOk(s.(acked := s.acked + acks), c.maxAttempts, AfterPublish(c, l, raw))
  {
    var s' := s.(acked := s.acked + acks);
    LocalStable(s, s', c.maxAttempts, l);
    match l
    case SinglePersisted(record) =>
      assert record.executionId in TaskIds(l);
    case ChunkPersisted(pending) =>
      ChunkMarked(s', pending, raw, acks);
    case RelayClaimed(token, now, ids, copies) =>
      hide MakePlan, PlanOk;
      PlanIsOk(s', c.maxAttempts, ids, copies, raw, acks);
  }

  /** What a publish makes of a claim: only acknowledged ids are in success, and each
      other id is sorted by its attempts. */
  lemma {:induction false} PlanIsOk(
    s: System, max: int, ids: seq<Id>, copies: map<Id, Message>, raw: RunResult, acks: set<Id>)
    requires (forall id | id in ids :: id in copies) && HonestResult(ids, raw, acks) && acks <= s.acked
    ensures PlanOk(s, max, ids, copies, MakePlan(ids, copies, raw, max))
  {
    PlanPartitions(ids, copies, raw, max);
    LargestCoversRetries(ids, copies, raw, max);
    PlanLargest(ids, copies, raw, max);
    hide MakePlan, LargestOk;
  }

  lemma {:induction false} PlanLargest(ids: seq<Id>, copies: map<Id, Message>, raw: RunResult, max: int)
    requires forall id | id in ids :: id in copies
    ensures LargestOk(copies, MakePlan(ids, copies, raw, max))
  {
    PlanPartitions(ids, copies, raw, max);
    LargestIsOfFailed(ids, copies, raw, max);
    ConfirmedMeans(ids, raw);
    hide MakePlan;
  }

  lemma {:induction false} ChunkMarked(s: System, pending: seq<Record>, raw: RunResult, acks: set<Id>)
    requires forall r | r in pending :: PendingOk(s, r)
    requires HonestResult(IdsOf(pending), raw, acks) && acks <= s.acked
    ensures var result := Complete(IdsOf(pending), raw);
      var marked := MarkFailed(pending, result.failed);
      && (forall r | r in marked :: MarkedOk(s, r, result))
      && (forall id | id in result.failed :: exists r :: r in marked && r.executionId == id && r.status != Wait)
      && (forall id | id in result.success :: id in s.acked && id !in result.failed)
  {
    var ids := IdsOf(pending);
    var result := Complete(ids, raw);
    var marked := MarkFailed(pending, result.failed);
    CompletePartitions(ids, raw);
    forall r | r in marked ensures MarkedOk(s, r, result) {
      var i :| 0 <= i < |marked| && marked[i] == r;
      assert PendingOk(s, pending[i]);
    }
    forall id | id in result.failed ensures exists r :: r in marked && r.executionId == id && r.status != Wait {
      var i :| 0 <= i < |ids| && ids[i] == id;
      assert marked[i] in marked;
    }
  }

  lemma {:induction false} PublishKeepsInv(c: RelayConfig, s: System, actor: Actor, raw: RunResult, acks: set<Id>)
    requires Inv(c, s) && Enabled(c, s, Publish(actor, raw, acks))
    ensures Inv(c, Apply(c, s, Publish(actor, raw, acks)))
  {
    var s1 := s.(acked := s.acked + acks);
    forall id | id in s.tables.outbox ensures RowOk(s1, c.maxAttempts, id) {
      assert RowOk(s, c.maxAttempts, id);
    }
    forall id | id in s.tables.records ensures HistoryOk(s1, id) {
      assert HistoryOk(s, id);
    }
    LocalsStable(s, s1, c.maxAttempts);
    PublishedLocal(c, s, s.locals[actor], raw, acks);
    WithLocal(c, s1, actor, AfterPublish(c, s.locals[actor], raw));
  }

  // ---- claims -------------------------------------------------------------------------

  lemma {:induction false} SelectionDistinct(
    outbox: map<Id, Message>, now: Time, limit: nat, locked: set<Id>, ids: seq<Id>)
    requires ClaimSelection(outbox, now, limit, locked, ids)
    ensures Distinct(ids)
    ensures forall id | id in ids :: id in outbox && Claimable(outbox[id], now)
  {
  }

  lemma {:induction false} RowAfterClaim(s: System, max: int, ids: seq<Id>, until: Time, token: string, id: Id)
    requires id in s.tables.outbox && id in s.tables.records && RowOk(s, max, id)
    requires token !in s.claims && token != ""
    requires id in ids ==> s.tables.outbox[id].state.Pending? || s.tables.outbox[id].state.Processing?
    ensures RowOk(Claimed(s, ids, until, token), max, id)
  {
    var s' := Claimed(s, ids, until, token);
    if id in ids {
      assert ClaimsOf(s'.claims, id) == ClaimsOf(s.claims, id) + {token};
    } else {
      assert ClaimsOf(s'.claims, id) == ClaimsOf(s.claims, id);
    }
  }

  lemma {:induction false} ClaimedKeepsInv(c: RelayConfig, s: System, ids: seq<Id>, until: Time, token: string)
    requires Inv(c, s) && token !in s.claims && token != ""
    requires forall id | id in ids ::
      id in s.tables.outbox && (s.tables.outbox[id].state.Pending? || s.tables.outbox[id].state.Processing?)
    ensures Inv(c, Claimed(s, ids, until, token))
  {
    var s' := Claimed(s, ids, until, token);
    assert SameShape(s.tables, s'.tables);
    SameShapeKeeps(s.tables, s'.tables);
    forall id | id in s'.tables.outbox ensures RowOk(s', c.maxAttempts, id) {
      assert id in s.tables.outbox.Keys && id in s.tables.records.Keys;
      RowAfterClaim(s, c.maxAttempts, ids, until, token, id);
    }
    hide RowOk, SameShape, Wf, Paired, LocalOk;
    forall id | id in s'.tables.records ensures HistoryOk(s', id) {
      assert HistoryOk(s, id);
    }
    LocalsStable(s, s', c.maxAttempts);
    hide HistoryOk;
  }

  lemma {:induction false} ClaimedLocal(s: System, ids: seq<Id>, until: Time, token: string)
    requires token != "" && Distinct(ids) && forall id | id in ids :: id in s.tables.outbox
    ensures ClaimedOk(Claimed(s, ids, until, token), token, ids, Copies(s.tables.outbox, ids, until, token))
  {
  }

  lemma {:induction false} WithClaimKeepsInv(
    c: RelayConfig, s: System, actor: Actor, now: Time, ids: seq<Id>, until: Time, token: string)
    requires Inv(c, s) && token !in s.claims && token != "" && Distinct(ids)
    requires forall id | id in ids ::
      id in s.tables.outbox && (s.tables.outbox[id].state.Pending? || s.tables.outbox[id].state.Processing?)
    ensures Inv(c, WithClaim(s, actor, now, ids, until, token))
  {
    ClaimedKeepsInv(c, s, ids, until, token);
    ClaimedLocal(s, ids, until, token);
    WithLocal(c, Claimed(s, ids, until, token), actor,
      RelayClaimed(token, now, ids, Copies(s.tables.outbox, ids, until, token)));
  }

  lemma {:induction false} ClaimKeepsInv(
    c: RelayConfig, s: System, actor: Actor, now: Time, token: string, locked: set<Id>, ids: seq<Id>)
    requires Inv(c, s) && Enabled(c, s, Claim(actor, now, token, locked, ids))
    ensures Inv(c, WithClaim(s, actor, now, ids, now + c.leaseDuration, token))
  {
    hide Inv;
    SelectionDistinct(s.tables.outbox, now, EffectiveLimit(c.batchSize), locked, ids);
    WithClaimKeepsInv(c, s, actor, now, ids, now + c.leaseDuration, token);
  }

  // ---- callbacks ------------------------------------------------------------------------

  lemma {:induction false} CallbackRows(c: RelayConfig, s: System, t': Tables, id: Id, next: Status)
    requires Inv(c, s) && id in s.tables.records
    requires CanTransitTo(s.tables.records[id].status, next) && next != DispatchFailed
    requires t' == s.tables.(records := s.tables.records[id := s.tables.records[id].(status := next)])
    ensures Wf(t') && Paired(t') && RowsOk(Commit(s, t'), c.maxAttempts)
  {
    assert SameShape(s.tables, t');
    SameShapeKeeps(s.tables, t');
    forall x | x in t'.outbox ensures RowOk(Commit(s, t'), c.maxAttempts, x) {
      assert RowOk(s, c.maxAttempts, x);
    }
  }

  lemma {:induction false} CallbackKeepsInv(c: RelayConfig, s: System, id: Id, next: Status)
    requires Inv(c, s) && Enabled(c, s, Callback(id, next))
    ensures Inv(c, Apply(c, s, Callback(id, next)))
  {
    var t' := s.tables.(records := s.tables.records[id := s.tables.records[id].(status := next)]);
    CallbackRows(c, s, t', id, next);
    hide RowsOk, Wf, Paired, HistoryOk, LocalOk;
    assert t'.records.Keys == s.tables.records.Keys;
    HistoriesKept(s, t');
    hide Observe;
    LocalsStable(s, Commit(s, t'), c.maxAttempts);
    hide StatusStep;
    forall token | token in s.claims ensures ClaimKnown(Commit(s, t'), token) {
      assert ClaimKnown(s, token);
    }
  }

  // ---- write-backs ------------------------------------------------------------------------

  /** An engine transaction: same rows, statuses only from WAIT to DISPATCH_FAILED. */
  ghost predicate EngineWrite(t: Tables, t': Tables) {
    && SameShape(t, t')
    && forall id | id in t.records ::
         || t'.records[id].status == t.records[id].status
         || (t.records[id].status == Wait && t'.records[id].status == DispatchFailed)
  }

  /** A committed engine transaction keeps the invariant when it keeps every row's. */
  lemma {:induction false} EngineCommit(c: RelayConfig, s: System, t': Tables)
    requires Inv(c, s) && EngineWrite(s.tables, t')
    requires forall id | id in t'.outbox :: id in t'.records && RowOk(Commit(s, t'), c.maxAttempts, id)
    ensures Inv(c, Commit(s, t'))
  {
    SameShapeKeeps(s.tables, t');
    HistoriesKept(s, t');
    LocalsStable(s, Commit(s, t'), c.maxAttempts);
  }

  /** What a committed single write-back did to its row; no other row changes. */
  lemma {:induction false} SingleWriteBackEffect(t: Tables, id: Id, confirmed: bool)
    requires id in t.records && id in t.outbox && t.records[id].executionId == id
    requires SingleWriteBack(t, id, confirmed).Some?
    ensures var t' := SingleWriteBack(t, id, confirmed).value;
      && SameShape(t, t')
      && t.outbox[id].state.Pending?
      && t'.outbox == t.outbox[id := Patched(t.outbox[id], if confirmed then ToPublished else ToDead)]
      && (confirmed ==> t'.records == t.records)
      && (!confirmed ==> t.records[id].status.Wait?)
      && (!confirmed ==> t'.records == t.records[id := t.records[id].(status := DispatchFailed)])
  {
  }

  lemma {:induction false} SingleWriteBackKeepsInv(c: RelayConfig, s: System, id: Id, confirmed: bool)
    requires Inv(c, s) && id in s.tables.records && (confirmed ==> id in s.acked)
    ensures var r := SingleWriteBack(s.tables, id, confirmed);
      r.Some? ==> EngineWrite(s.tables, r.value) && Inv(c, Commit(s, r.value))
  {
    var r := SingleWriteBack(s.tables, id, confirmed);
    if r.Some? {
      assert id in s.tables.records.Keys && id in s.tables.outbox.Keys;
      assert RecordIndexed(s.tables, id);
      SingleWriteBackEffect(s.tables, id, confirmed);
      SingleRows(c, s, r.value, id, confirmed);
      hide Inv;
      EngineCommit(c, s, r.value);
    }
  }

  lemma {:induction false} SingleRows(c: RelayConfig, s: System, t': Tables, id: Id, confirmed: bool)
    requires Inv(c, s) && id in s.tables.records && id in s.tables.outbox && (confirmed ==> id in s.acked)
    requires SameShape(s.tables, t') && s.tables.outbox[id].state.Pending?
    requires t'.outbox == s.tables.outbox[id := Patched(s.tables.outbox[id], if confirmed then ToPublished else ToDead)]
    requires confirmed ==> t'.records == s.tables.records
    requires !confirmed ==> t'.records == s.tables.records[id := s.tables.records[id].(status := DispatchFailed)]
    ensures forall x | x in t'.outbox :: x in t'.records && RowOk(Commit(s, t'), c.maxAttempts, x)
  {
  }

  /** The status and the message that a committed chunk write-back leaves. */
  function ChunkStatus(r: Record, pending: seq<Record>, id: Id): Status {
    if r.status == Wait && StatusFor(pending, id).Some? then StatusFor(pending, id).value else r.status
  }

  function ChunkPatched(m: Message, id: Id, result: RunResult): Message {
    if id in result.failed then Patched(m, ToDead)
    else if id in result.success then Patched(m, ToPublished)
    else m
  }

  /** What a committed chunk write-back did to each row, and what it found there. */
  ghost predicate ChunkWritten(t: Tables, t': Tables, pending: seq<Record>, result: RunResult) {
    && SameShape(t, t')
    && (forall id | id in t.records :: t'.records[id].status == ChunkStatus(t.records[id], pending, id))
    && (forall id | id in t.outbox :: t'.outbox[id] == ChunkPatched(t.outbox[id], id, result))
    && (forall id | id in result.success || id in result.failed :: id in t.outbox && t.outbox[id].state.Pending?)
    && (forall id | id in result.success :: id !in result.failed)
  }

  lemma {:induction false} ChunkWriteBackEffect(t: Tables, pending: seq<Record>, result: RunResult)
    requires ChunkWriteBack(t, pending, result).Some?
    ensures ChunkWritten(t, ChunkWriteBack(t, pending, result).value, pending, result)
  {
  }

  lemma {:induction false} ChunkRow(
    s: System, t': Tables, max: int, pending: seq<Record>, result: RunResult, id: Id)
    requires id in s.tables.outbox && id in s.tables.records && RowOk(s, max, id)
    requires LocalOk(s, max, ChunkPublished(pending, result))
    requires id in t'.records && id in t'.outbox
    requires t'.records[id].status == ChunkStatus(s.tables.records[id], pending, id)
    requires t'.outbox[id] == ChunkPatched(s.tables.outbox[id], id, result)
    requires id in result.success || id in result.failed ==> s.tables.outbox[id].state.Pending?
    requires id in result.success ==> id !in result.failed
    ensures RowOk(Commit(s, t'), max, id)
    ensures t'.records[id].status == s.tables.records[id].status
      || (s.tables.records[id].status == Wait && t'.records[id].status == DispatchFailed)
    ensures id in result.failed ==> t'.records[id].status != Wait
    ensures id in result.success ==> id in s.acked
  {
    if s.tables.records[id].status == Wait {
      ChunkStatusFor(s, pending, result, id);
    }
  }

  lemma {:induction false} ChunkRows(
    c: RelayConfig, s: System, t': Tables, pending: seq<Record>, result: RunResult)
    requires Inv(c, s) && LocalOk(s, c.maxAttempts, ChunkPublished(pending, result))
    requires ChunkWritten(s.tables, t', pending, result)
    ensures EngineWrite(s.tables, t')
    ensures forall id | id in t'.outbox :: id in t'.records && RowOk(Commit(s, t'), c.maxAttempts, id)
    ensures forall id | id in result.failed :: id in t'.records && t'.records[id].status != Wait
  {
    forall id | id in s.tables.records
      ensures id in t'.outbox && id in t'.records && RowOk(Commit(s, t'), c.maxAttempts, id)
      ensures t'.records[id].status == s.tables.records[id].status
        || (s.tables.records[id].status == Wait && t'.records[id].status == DispatchFailed)
      ensures id in result.failed ==> t'.records[id].status != Wait
    {
      assert id in s.tables.outbox.Keys && id in t'.outbox.Keys && id in t'.records.Keys;
      assert RowOk(s, c.maxAttempts, id);
      hide RowOk, LocalOk;
      ChunkRow(s, t', c.maxAttempts, pending, result, id);
    }
    hide RowOk, LocalOk;
    forall id | id in t'.outbox ensures id in s.tables.records {
      assert id in t'.outbox.Keys && id in s.tables.outbox.Keys && id in s.tables.records.Keys;
    }
  }

  lemma {:induction false} ChunkWriteBackKeepsInv(c: RelayConfig, s: System, pending: seq<Record>, result: RunResult)
    requires Inv(c, s) && LocalOk(s, c.maxAttempts, ChunkPublished(pending, result))
    ensures var r := ChunkWriteBack(s.tables, pending, result);
      r.Some? ==> EngineWrite(s.tables, r.value) && Inv(c, Commit(s, r.value))
  {
    hide Inv, LocalOk, RowOk, ChunkWritten, EngineWrite;
    var r := ChunkWriteBack(s.tables, pending, result);
    hide ChunkWriteBack;
    if r.Some? {
      ChunkWriteBackEffect(s.tables, pending, result);
      ChunkRows(c, s, r.value, pending, result);
      EngineCommit(c, s, r.value);
    }
  }

  /** For a record still in WAIT, the only status the chunk can write is
      DISPATCH_FAILED, and it is written exactly for the failed ids. */
  lemma {:induction false} ChunkStatusFor(s: System, pending: seq<Record>, result: RunResult, id: Id)
    requires forall r | r in pending :: MarkedOk(s, r, result)
    requires forall x | x in result.failed :: exists r :: r in pending && r.executionId == x && r.status != Wait
    requires id in s.tables.records && s.tables.records[id].status == Wait
    ensures StatusFor(pending, id).Some? ==> StatusFor(pending, id).value == DispatchFailed
    ensures StatusFor(pending, id).Some? <==> id in result.failed
  {
    StatusForWitness(pending, id);
    if StatusFor(pending, id).Some? {
      var r :| r in pending && r.executionId == id && r.status == StatusFor(pending, id).value && r.status != Wait;
      assert MarkedOk(s, r, result);
    }
  }

  lemma {:induction false} DeadStatusFor(copies: map<Id, Message>, dead: seq<Id>, id: Id)
    requires forall x | x in dead :: x in copies
    ensures StatusFor(DeadRecords(copies, dead), id) == if id in dead then Some(DispatchFailed) else None
  {
    var rs := DeadRecords(copies, dead);
    StatusForWitness(rs, id);
    forall r | r in rs ensures r.executionId in dead && r.status == DispatchFailed {
      var i :| 0 <= i < |rs| && rs[i] == r;
    }
    if id in dead {
      var i :| 0 <= i < |dead| && dead[i] == id;
      assert rs[i] in rs;
    }
  }

  /** The new content of one row under a committed relay write-back. */
  function RelayPatched(m: Message, id: Id, plan: Plan, retryAt: Time): Message {
    if id in plan.success then Patched(m, ToPublished)
    else if id in plan.dead then Patched(m, ToDead)
    else if id in plan.retry then Patched(m, ToPending(retryAt))
    else m
  }

  ghost predicate PlanDisjoint(plan: Plan) {
    && (forall id | id in plan.success :: id !in plan.retry && id !in plan.dead)
    && (forall id | id in plan.retry :: id !in plan.dead)
  }

  /** The status a committed relay write-back leaves. */
  function RelayStatus(r: Record, id: Id, plan: Plan): Status {
    if r.status == Wait && id in plan.dead then DispatchFailed else r.status
  }

  ghost predicate RelayWritten(t: Tables, t': Tables, token: string, plan: Plan, retryAt: Time) {
    && SameShape(t, t')
    && (forall id | id in t.records :: t'.records[id].status == RelayStatus(t.records[id], id, plan))
    && (forall id | id in t.outbox :: t'.outbox[id] == RelayPatched(t.outbox[id], id, plan, retryAt))
    && (forall id | id in plan.success || id in plan.dead || id in plan.retry ::
          id in t.outbox && Guard(t.outbox[id], token))
  }

  ghost predicate RowsUpdated(t: Tables, t': Tables, ids: seq<Id>, token: string, p: Patch) {
    && t' == t.(outbox := t'.outbox) && t'.outbox.Keys == t.outbox.Keys
    && (forall id | id in t.outbox :: t'.outbox[id] == if id in ids then Patched(t.outbox[id], p) else t.outbox[id])
    && (forall id | id in ids :: id in t.outbox && Guard(t.outbox[id], token))
  }

  lemma {:induction false} UpdateEffect(t: Tables, ids: seq<Id>, token: string, p: Patch)
    requires UpdateByExecutionIds(t, ids, token, p).Some?
    ensures RowsUpdated(t, UpdateByExecutionIds(t, ids, token, p).value, ids, token, p)
  {
  }

  lemma {:induction false} ThreeUpdates(
    t: Tables, t2: Tables, t3: Tables, t4: Tables, token: string, plan: Plan, retryAt: Time)
    requires PlanDisjoint(plan)
    requires RowsUpdated(t, t2, plan.success, token, ToPublished)
    requires RowsUpdated(t2, t3, plan.dead, token, ToDead)
    requires RowsUpdated(t3, t4, plan.retry, token, ToPending(retryAt))
    ensures t4 == t.(outbox := t4.outbox) && t4.outbox.Keys == t.outbox.Keys
    ensures forall id | id in t.outbox :: t4.outbox[id] == RelayPatched(t.outbox[id], id, plan, retryAt)
    ensures forall id | id in plan.success || id in plan.dead || id in plan.retry ::
      id in t.outbox && Guard(t.outbox[id], token)
  {
  }

  lemma {:induction false} DeadStatuses(t: Tables, copies: map<Id, Message>, plan: Plan)
    requires forall x | x in plan.dead :: x in copies
    requires WriteStatuses(t, DeadRecords(copies, plan.dead)).Some?
    ensures var t1 := WriteStatuses(t, DeadRecords(copies, plan.dead)).value;
      && t1 == t.(records := t1.records) && t1.records.Keys == t.records.Keys
      && (forall id | id in t.records ::
            t1.records[id] == t.records[id].(status := RelayStatus(t.records[id], id, plan)))
  {
    var rs := DeadRecords(copies, plan.dead);
    var t1 := WriteStatuses(t, rs).value;
    forall id | id in t.records
      ensures t1.records[id] == t.records[id].(status := RelayStatus(t.records[id], id, plan))
    {
      DeadStatusFor(copies, plan.dead, id);
    }
  }

  lemma {:induction false} StatusesThenRows(t: Tables, t1: Tables, t4: Tables, token: string, plan: Plan, retryAt: Time)
    requires t1 == t.(records := t1.records) && t1.records.Keys == t.records.Keys
    requires forall id | id in t.records ::
      t1.records[id] == t.records[id].(status := RelayStatus(t.records[id], id, plan))
    requires t4 == t1.(outbox := t4.outbox) && t4.outbox.Keys == t1.outbox.Keys
    requires forall id | id in t1.outbox :: t4.outbox[id] == RelayPatched(t1.outbox[id], id, plan, retryAt)
    requires forall id | id in plan.success || id in plan.dead || id in plan.retry ::
      id in t1.outbox && Guard(t1.outbox[id], token)
    ensures RelayWritten(t, t4, token, plan, retryAt)
  {
  }

  /** What a committed relay write-back did to each row, and what it found there. */
  lemma {:induction false} RelayWriteBackEffect(
    t: Tables, token: string, copies: map<Id, Message>, plan: Plan, retryAt: Time)
    requires PlanDisjoint(plan) && forall x | x in plan.dead :: x in copies
    requires RelayWriteBack(t, token, copies, plan, retryAt).Some?
    ensures RelayWritten(t, RelayWriteBack(t, token, copies, plan, retryAt).value, token, plan, retryAt)
  {
    var t1 := WriteStatuses(t, DeadRecords(copies, plan.dead)).value;
    var t2 := UpdateByExecutionIds(t1, plan.success, token, ToPublished).value;
    var t3 := UpdateByExecutionIds(t2, plan.dead, token, ToDead).value;
    var t4 := UpdateByExecutionIds(t3, plan.retry, token, ToPending(retryAt)).value;
    hide RelayWritten, RowsUpdated, WriteStatuses, UpdateByExecutionIds, DeadRecords;
    DeadStatuses(t, copies, plan);
    UpdateEffect(t1, plan.success, token, ToPublished);
    UpdateEffect(t2, plan.dead, token, ToDead);
    UpdateEffect(t3, plan.retry, token, ToPending(retryAt));
    ThreeUpdates(t1, t2, t3, t4, token, plan, retryAt);
    StatusesThenRows(t, t1, t4, token, plan, retryAt);
  }

  lemma {:induction false} RelayWriteBackKeepsInv(
    c: RelayConfig, s: System, token: string, ids: seq<Id>, copies: map<Id, Message>, plan: Plan, retryAt: Time)
    requires Inv(c, s) && ClaimedOk(s, token, ids, copies) && PlanOk(s, c.maxAttempts, ids, copies, plan)
    ensures var r := RelayWriteBack(s.tables, token, copies, plan, retryAt);
      r.Some? ==> EngineWrite(s.tables, r.value) && Inv(c, Commit(s, r.value))
  {
    var r := RelayWriteBack(s.tables, token, copies, plan, retryAt);
    if r.Some? {
      RelayWriteBackEffect(s.tables, token, copies, plan, retryAt);
      RelayRows(c, s, r.value, token, ids, copies, plan, retryAt);
      hide Inv;
      EngineCommit(c, s, r.value);
    }
  }

  /** One claimed row under a committed write-back: the token guard makes the row
      equal to the copy the relay decided on, so a retried row has attempts left. */
  lemma {:induction false} RelayRow(
    s: System, t': Tables, max: int, token: string, ids: seq<Id>, copies: map<Id, Message>, plan: Plan,
    retryAt: Time, id: Id)
    requires id in s.tables.outbox && id in s.tables.records && RowOk(s, max, id)
    requires ClaimedOk(s, token, ids, copies) && PlanOk(s, max, ids, copies, plan)
    requires id in t'.records && id in t'.outbox
    requires t'.records[id].status == RelayStatus(s.tables.records[id], id, plan)
    requires t'.outbox[id] == RelayPatched(s.tables.outbox[id], id, plan, retryAt)
    requires id in plan.success || id in plan.dead || id in plan.retry ==> Guard(s.tables.outbox[id], token)
    ensures RowOk(Commit(s, t'), max, id)
    ensures id in plan.success || id in plan.dead || id in plan.retry ==> s.tables.outbox[id] == copies[id]
  {
  }

  lemma {:induction false} RelayRows(
    c: RelayConfig, s: System, t': Tables, token: string, ids: seq<Id>, copies: map<Id, Message>, plan: Plan,
    retryAt: Time)
    requires Inv(c, s) && ClaimedOk(s, token, ids, copies) && PlanOk(s, c.maxAttempts, ids, copies, plan)
    requires RelayWritten(s.tables, t', token, plan, retryAt)
    ensures forall x | x in t'.outbox :: x in t'.records && RowOk(Commit(s, t'), c.maxAttempts, x)
  {
    forall x | x in t'.outbox ensures x in t'.records && RowOk(Commit(s, t'), c.maxAttempts, x) {
      assert x in t'.outbox.Keys && x in s.tables.outbox.Keys && x in s.tables.records.Keys && x in t'.records.Keys;
      assert RowOk(s, c.maxAttempts, x);
      hide RowOk, PlanOk, ClaimedOk;
      RelayRow(s, t', c.maxAttempts, token, ids, copies, plan, retryAt, x);
    }
  }

  // ---- the whole machine --------------------------------------------------------------------

  lemma {:induction false} WriteBackKeepsInv(c: RelayConfig, s: System, actor: Actor)
    requires Inv(c, s) && Enabled(c, s, WriteBack(actor))
    ensures var t := WriteBackOf(c, s.tables, s.locals[actor]);
      t.Some? ==> EngineWrite(s.tables, t.value) && Inv(c, Commit(s, t.value))
  {
    assert LocalOk(s, c.maxAttempts, s.locals[actor]);
    match s.locals[actor]
    case SinglePublished(record, confirmed) =>
      SingleWriteBackKeepsInv(c, s, record.executionId, confirmed);
    case ChunkPublished(pending, result) =>
      ChunkWriteBackKeepsInv(c, s, pending, result);
    case RelayPublished(token, now, ids, copies, plan) =>
      RelayWriteBackKeepsInv(c, s, token, ids, copies, plan, RetryAt(c, now, plan.maxAttempt));
  }

  lemma {:induction false} FinishKeepsInv(c: RelayConfig, s: System, actor: Actor)
    requires Inv(c, s) && Enabled(c, s, WriteBack(actor))
    ensures Inv(c, Apply(c, s, WriteBack(actor)))
  {
    WriteBackKeepsInv(c, s, actor);
    match WriteBackOf(c, s.tables, s.locals[actor])
    case Some(t) =>
      WithoutLocal(c, Commit(s, t), actor);
      assert Commit(s, t).(locals := s.locals - {actor}) == Commit(s.(locals := s.locals - {actor}), t);
    case None =>
      WithoutLocal(c, s, actor);
  }

  lemma {:induction false} TickKeepsInv(c: RelayConfig, s: System, to: Time)
    requires Inv(c, s)
    ensures Inv(c, s.(clock := to))
  {
  }

  lemma {:induction false} BeginSingleKeepsInv(
    c: RelayConfig, s: System, actor: Actor, requestId: string, cs: Case, version: string, at: Time)
    requires Inv(c, s) && ValidConfig(c) && requestId != ""
    ensures Inv(c, BeginWith(s, actor, version, PersistSingle(s.tables, requestId, cs, version, at), true))
  {
    assert Wf(s.tables);
    hide Inv;
    SingleIsChunk(s.tables, requestId, cs, version, at);
    BeginKeepsInv(c, s, actor, requestId, [cs], version, at, true);
  }

  /** Every step of every actor, of the executor callback, of the clock, and every
      crash keeps the invariant. */
  lemma {:induction false} StepKeepsInv(c: RelayConfig, s: System, step: Step)
    requires ValidConfig(c) && Inv(c, s) && Enabled(c, s, step)
    ensures Inv(c, Apply(c, s, step))
  {
    hide Inv;
    match step
    case BeginSingle(actor, requestId, cs, version, at) =>
      BeginSingleKeepsInv(c, s, actor, requestId, cs, version, at);
    case BeginChunk(actor, requestId, cases, version, at) =>
      BeginKeepsInv(c, s, actor, requestId, cases, version, at, false);
    case Publish(actor, raw, acks) =>
      PublishKeepsInv(c, s, actor, raw, acks);
    case WriteBack(actor) =>
      FinishKeepsInv(c, s, actor);
    case Claim(actor, now, token, locked, ids) =>
      ClaimKeepsInv(c, s, actor, now, token, locked, ids);
    case Callback(id, next) =>
      CallbackKeepsInv(c, s, id, next);
    case Tick(to) =>
      TickKeepsInv(c, s, to);
    case Crash(actor) =>
      WithoutLocal(c, s, actor);
  }

  lemma {:induction false} RunKeepsInv(c: RelayConfig, s: System, steps: seq<Step>)
    requires ValidConfig(c) && Inv(c, s) && ValidRun(c, s, steps)
    ensures Inv(c, Run(c, s, steps))
    decreases |steps|
  {
    hide Inv;
    if steps != [] {
      StepKeepsInv(c, s, steps[0]);
      RunKeepsInv(c, Apply(c, s, steps[0]), steps[1..]);
    }
  }
}

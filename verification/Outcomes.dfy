/** What the broker's answer comes to: for each entry point, which messages are stored as
    published, retried or dead and what the caller is told, read off the answer itself and
    the rows that phase one or the claim has read. */
module Outcomes {
  import opened Domain
  import opened BatchResult
  import opened Store
  import opened StoreEffects
  import opened Statements
  import opened Relay
  import opened Protocol
  import opened Invariant
  import opened Safety
  import opened Answers
  import FastPath
  import Engine
  import Backoff

  // ---- a single case ---------------------------------------------------------------------------

  /** The execution id that is stored for a request and a case. */
  function StoredId(t: Tables, requestId: string, caseId: Id): Option<Id> {
    if (requestId, caseId) in t.byRequest then Some(t.byRequest[(requestId, caseId)]) else None
  }

  /** The answers of a single call before it publishes anything, by the stored row: another
      version is an error, a published or leased message is WAIT, a dead one is
      DISPATCH_FAILED; only a PENDING message of the same version is published. */
  lemma {:induction false} SingleAnswers(
    c: RelayConfig, s: System, begin: Step, raw: RunResult, others: Tables -> Tables)
    requires ValidConfig(c) && Inv(c, s) && begin.BeginSingle? && Enabled(c, s, begin)
    ensures var t1 := Apply(c, s, begin).tables;
      StoredId(t1, begin.requestId, begin.c.caseId).Some?
      && var id := StoredId(t1, begin.requestId, begin.c.caseId).value;
      && id in t1.records && id in t1.outbox
      && var run := Engine.CaseCall(s.tables, begin.requestId, Some(begin.c), begin.version, begin.at, raw, others);
      && run.reply.Reply? && run.reply.executionId == id
      && var publishes := t1.records[id].version == begin.version && t1.outbox[id].state == Pending;
      && (begin.actor in Apply(c, s, begin).locals <==> publishes)
      && (publishes ==> Apply(c, s, begin).locals[begin.actor] == SinglePersisted(t1.records[id]))
      && (!publishes ==> run.tables == t1)
      && (t1.records[id].version != begin.version ==> run.reply == Engine.Reply(id, None, true))
      && (t1.records[id].version == begin.version ==>
            && (t1.outbox[id].state == OutboxState.Published || t1.outbox[id].state == Processing ==>
                  run.reply == Engine.Reply(id, Some(Wait), false))
            && (t1.outbox[id].state == Dead ==> run.reply == Engine.Reply(id, Some(DispatchFailed), false)))
  {
    Engine.BeginsOnTables(c, s, begin);
    hide Inv, Enabled, Apply, PersistSingle, ReadBack, Told, SingleWriteBack, SingleConfirmed;
    var t1, r, m := SingleReads(c, s, begin);
    ReadsStored(t1, r, m, begin.requestId, begin.c);
    ReadsKey(t1, r, m, begin.requestId, begin.c);
  }

  lemma {:induction false} ReadsKey(t: Tables, r: Record, m: Message, requestId: string, cs: Case)
    requires ReadBack(t, Persisted([r], [m]), requestId, [cs])
    ensures StoredId(t, requestId, cs.caseId) == Some(r.executionId)
  {
    assert ReadBackAt(t, r, m, (requestId, [cs][0].caseId));
  }

  /** What a single call that publishes comes to. Its answer is WAIT if the publish reports
      neither an error nor a failed id, otherwise DISPATCH_FAILED. If no relay and no other
      call has taken the message out of PENDING, and after a failed publish the record is
      still in WAIT, the call has no error and its message is PUBLISHED with no record
      changed, or DEAD with its record, and no other, DISPATCH_FAILED. Otherwise the call has an error
      and changes nothing. */
  lemma {:induction false} SingleOutcome(
    c: RelayConfig, s: System, begin: Step, ph: Phases, others: Tables -> Tables)
    requires ValidConfig(c) && Inv(c, s) && begin.BeginSingle? && Enabled(c, s, begin)
    requires PhasesOk(c, Apply(c, s, begin), begin.actor, ph)
    requires others(Apply(c, s, begin).tables) == AtWriteBack(c, Apply(c, s, begin), begin.actor, ph).tables
    ensures var b, t1 := begin, Apply(c, s, begin).tables;
      var s4 := AtWriteBack(c, Apply(c, s, b), b.actor, ph);
      && Enabled(c, s4, WriteBack(b.actor))
      && StoredId(t1, b.requestId, b.c.caseId).Some?
      && var id := StoredId(t1, b.requestId, b.c.caseId).value;
      var t4, t5 := s4.tables, Apply(c, s4, WriteBack(b.actor)).tables;
      var reply := Engine.CaseCall(s.tables, b.requestId, Some(b.c), b.version, b.at, ph.raw, others).reply;
      && id in t4.records && id in t4.outbox && id in t5.outbox && id in t5.records
      && reply.Reply? && reply.executionId == id
      && if !ph.raw.error && ph.raw.failed == [] then
           && reply.status == Some(Wait)
           && (reply.error <==> t4.outbox[id].state != Pending)
           && if reply.error then t5 == t4
              else PatchedTo(t4.outbox[id], t5.outbox[id], ToPublished) && t5.records == t4.records
         else
           && reply.status == Some(DispatchFailed)
           && (reply.error <==> t4.outbox[id].state != Pending || t4.records[id].status != Wait)
           && if reply.error then t5 == t4
              else
                && PatchedTo(t4.outbox[id], t5.outbox[id], ToDead)
                && t5.records == t4.records[id := t4.records[id].(status := DispatchFailed)]
  {
    var b, a, raw, s1 := begin, begin.actor, ph.raw, Apply(c, s, begin);
    var s4 := AtWriteBack(c, s1, a, ph);
    Engine.BeginsOnTables(c, s, b);
    hide Inv, PhasesOk, AtWriteBack, Enabled, Apply, PersistSingle, WriteBackOf, ReadBack;
    hide SingleWriteBack, Engine.CaseCall, StoredId, ReplayStatus, AfterPublish, SingleConfirmed, SingleDone;
    hide SingleFree;
    var t1, r, m := SingleReads(c, s, b);
    ReadsKey(t1, r, m, b.requestId, b.c);
    RemembersOwn(c, s1, a, ph);
    PhasesKeepInv(c, s, b, ph);
    AfterSingle(c, r, raw);
    SingleFencing(c, s4, a);
    StoredSingle(c, s4, a);
    Engine.SingleFinishes(c, s4, a, r, raw);
    CallReply(s.tables, b, raw, others, t1, r, m);
    SingleConfirmedMeans(raw);
    SingleFreeMeans(s4.tables, r.executionId, SingleConfirmed(raw));
    if SingleFree(s4.tables, r.executionId, SingleConfirmed(raw)) {
      SingleDoneMeans(s4.tables, Apply(c, s4, WriteBack(a)).tables, s4.acked, r.executionId, SingleConfirmed(raw));
    }
  }

  lemma SingleFreeMeans(t: Tables, id: Id, confirmed: bool)
    requires id in t.outbox && id in t.records
    ensures SingleFree(t, id, confirmed) <==>
      t.outbox[id].state == Pending && (confirmed || t.records[id].status == Wait)
  {
  }

  lemma SingleConfirmedMeans(raw: RunResult)
    ensures SingleConfirmed(raw) <==> !raw.error && raw.failed == []
  {
  }

  lemma {:induction false} SingleDoneMeans(t: Tables, t': Tables, acked: set<Id>, id: Id, confirmed: bool)
    requires SingleDone(t, t', acked, id, confirmed)
    ensures id in t.records && id in t.outbox && id in t'.outbox && id in t'.records
    ensures confirmed ==> PatchedTo(t.outbox[id], t'.outbox[id], ToPublished) && t'.records == t.records
    ensures !confirmed ==>
      && PatchedTo(t.outbox[id], t'.outbox[id], ToDead)
      && t'.records == t.records[id := t.records[id].(status := DispatchFailed)]
  {
  }

  // ---- a chunk ---------------------------------------------------------------------------------

  /** What the frame says of one row of its chunk, given the row that phase one has read. */
  ghost predicate RowTold(t: Tables, f: FastPath.Frame, id: Id, raw: RunResult) {
    && id in t.outbox
    && var state := t.outbox[id].state;
    && (id in f.success <==>
          state == OutboxState.Published || state == Processing || (state == Pending && !Unpublished(raw, id)))
    && (id in f.failed <==> state == Dead || (state == Pending && Unpublished(raw, id)))
  }

  /** Case i of the chunk is stored under its request, with its message. */
  ghost predicate CaseStored(t: Tables, requestId: string, cs: Case) {
    && StoredId(t, requestId, cs.caseId).Some?
    && StoredId(t, requestId, cs.caseId).value in t.records
    && StoredId(t, requestId, cs.caseId).value in t.outbox
  }

  function IdOf(t: Tables, requestId: string, cs: Case): Id {
    if StoredId(t, requestId, cs.caseId).Some? then StoredId(t, requestId, cs.caseId).value else 0
  }

  ghost predicate OfVersion(t: Tables, requestId: string, cs: Case, version: string) {
    IdOf(t, requestId, cs) in t.records && t.records[IdOf(t, requestId, cs)].version == version
  }

  ghost predicate ToPublish(t: Tables, requestId: string, cs: Case) {
    IdOf(t, requestId, cs) in t.outbox && t.outbox[IdOf(t, requestId, cs)].state == Pending
  }

  lemma {:induction false} ChunkStored(c: RelayConfig, s: System, begin: Step) returns (p: Persisted)
    requires Inv(c, s) && begin.BeginChunk? && Enabled(c, s, begin)
    ensures var t1 := Apply(c, s, begin).tables;
      && PersistChunk(s.tables, begin.requestId, begin.cases, begin.version, begin.at) == Some((t1, p))
      && ReadBack(t1, p, begin.requestId, begin.cases) && |p.records| == |p.messages|
    ensures var s1, a := Apply(c, s, begin), begin.actor;
      && (a in s1.locals <==> VersionsMatch(p, begin.version) && ReplaySplit(p).pending != [])
      && (a in s1.locals ==> s1.locals[a] == ChunkPersisted(ReplaySplit(p).pending))
  {
    hide Inv, Wf, Paired, ReplaySplit, PersistChunk, ReadBack, Enabled, Apply, VersionsMatch;
    Engine.BeginsOnTables(c, s, begin);
    var t1, p1 := Engine.PersistReads(s.tables, begin.requestId, begin.cases, begin.version, begin.at);
    p := p1;
    Engine.ChunkBegins(c, s, begin.actor, begin.requestId, begin.cases, begin.version, begin.at, t1, p);
  }

  /** What the read-back holds, on the stored rows. */
  lemma {:induction false} ReadBackMeans(t: Tables, p: Persisted, requestId: string, cases: seq<Case>, version: string)
    requires ReadBack(t, p, requestId, cases)
    ensures |p.records| == |p.messages| == |cases|
    ensures forall cs | cs in cases :: CaseStored(t, requestId, cs)
    ensures forall i | 0 <= i < |cases| :: IdOf(t, requestId, cases[i]) == p.records[i].executionId
    ensures VersionsMatch(p, version) <==> forall cs | cs in cases :: OfVersion(t, requestId, cs, version)
  {
    forall i | 0 <= i < |cases|
      ensures CaseStored(t, requestId, cases[i]) && IdOf(t, requestId, cases[i]) == p.records[i].executionId
      ensures p.records[i].version == version <==> OfVersion(t, requestId, cases[i], version)
    {
      assert ReadBackAt(t, p.records[i], p.messages[i], (requestId, cases[i].caseId));
    }
    hide ReadBack, CaseStored, IdOf, OfVersion;
    forall cs | cs in cases ensures CaseStored(t, requestId, cs) {
      var i :| 0 <= i < |cases| && cases[i] == cs;
    }
    if forall cs | cs in cases :: OfVersion(t, requestId, cs, version) {
      forall i | 0 <= i < |cases| ensures p.records[i].version == version {
        assert cases[i] in cases;
      }
    }
    if VersionsMatch(p, version) {
      forall cs | cs in cases ensures OfVersion(t, requestId, cs, version) {
        var i :| 0 <= i < |cases| && cases[i] == cs;
      }
    }
  }

  /** The replay sorts a stored id by the state of its message. */
  lemma {:induction false} SplitMeans(t: Tables, p: Persisted, requestId: string, cases: seq<Case>, id: Id)
    requires ReadBack(t, p, requestId, cases) && |p.records| == |p.messages|
    requires id in IdsOf(p.records)
    ensures id in t.outbox
    ensures var r, state := ReplaySplit(p), t.outbox[id].state;
      && (id in r.success <==> state == OutboxState.Published || state == Processing)
      && (id in r.failed <==> state == Dead)
      && (id in IdsOf(r.pending) <==> state == Pending)
  {
    FastPath.ReadBackIsStored(t, p, requestId, cases);
    FastPath.ReplaySorts(t, p);
    var ids := IdsOf(p.records);
    var i :| 0 <= i < |ids| && ids[i] == id;
    assert p.messages[i] == t.outbox[id];
    hide ReadBack, ReplaySplit, IdsOf;
    OnlyMembers(ids, FastPath.InStates(t, {OutboxState.Published, Processing}));
    OnlyMembers(ids, FastPath.InStates(t, {Dead}));
    OnlyMembers(ids, FastPath.InStates(t, {Pending}));
  }

  lemma {:induction false} FrameMeans(
    index: int, cases: seq<Case>, p: Persisted, version: string, raw: RunResult, writeBackFailed: bool, id: Id)
    requires |p.records| == |p.messages| && VersionsMatch(p, version)
    ensures var f := FastPath.ChunkFrame(index, cases, Some(p), version, raw, writeBackFailed);
      var r := ReplaySplit(p);
      && f.chunkIndex == index && f.chunkSize == |cases|
      && (id in f.success <==> id in r.success || (id in IdsOf(r.pending) && !Unpublished(raw, id)))
      && (id in f.failed <==> id in r.failed || (id in IdsOf(r.pending) && Unpublished(raw, id)))
      && (f.chunkError <==> (r.pending != [] && raw.error) || writeBackFailed)
  {
    var ids := IdsOf(ReplaySplit(p).pending);
    CompletePartitions(ids, raw);
    hide ReplaySplit, VersionsMatch, Complete;
  }

  /** What a chunk call reports of each of its cases, by the rows that phase one has read
      and by the broker's answer; with a case of another version it reports nothing but an
      error, and nothing is published. */
  lemma {:induction false} ChunkAnswers(
    c: RelayConfig, s: System, begin: Step, index: int, raw: RunResult, others: Tables -> Tables)
    requires ValidConfig(c) && Inv(c, s) && begin.BeginChunk? && Enabled(c, s, begin)
    ensures var b, t1 := begin, Apply(c, s, begin).tables;
      var run := Engine.ChunkCall(s.tables, index, b.requestId, b.cases, b.version, b.at, raw, others);
      var goesOn := b.actor in Apply(c, s, b).locals;
      && run.frame.chunkIndex == index && run.frame.chunkSize == |b.cases|
      && (forall cs | cs in b.cases :: CaseStored(t1, b.requestId, cs))
      && if forall cs | cs in b.cases :: OfVersion(t1, b.requestId, cs, b.version) then
           && (forall cs | cs in b.cases :: RowTold(t1, run.frame, IdOf(t1, b.requestId, cs), raw))
           && (goesOn <==> exists cs :: cs in b.cases && ToPublish(t1, b.requestId, cs))
           && (!goesOn ==> !run.frame.chunkError)
         else
           run == Engine.ChunkRun(t1, FastPath.Frame(index, |b.cases|, [], [], true)) && !goesOn
  {
    var b, s1 := begin, Apply(c, s, begin);
    var t1 := s1.tables;
    hide Inv, PersistChunk, ReadBack, Enabled, Apply, VersionsMatch, ReplaySplit, RowTold, CaseStored, OfVersion;
    hide Engine.ChunkCall, Engine.ChunkFinish, FastPath.ChunkFrame, ToPublish, IdOf;
    var p := ChunkStored(c, s, b);
    ReadBackMeans(t1, p, b.requestId, b.cases, b.version);
    Engine.ChunkCallIs(s.tables, index, b.requestId, b.cases, b.version, b.at, raw, others, t1, p);
    if VersionsMatch(p, b.version) {
      Engine.NothingToFinish(others(t1), raw);
      CasesTold(t1, index, b, raw, others, p);
      SomeToPublish(t1, b.requestId, b.cases, p);
      FrameMeans(index, b.cases, p, b.version, raw,
        Engine.ChunkFinish(others(t1), ReplaySplit(p).pending, raw).None?, 0);
    } else {
      MismatchFrame(index, b.cases, p, b.version, raw);
    }
  }

  lemma {:induction false} MismatchFrame(index: int, cases: seq<Case>, p: Persisted, version: string, raw: RunResult)
    requires |p.records| == |p.messages| && !VersionsMatch(p, version)
    ensures FastPath.ChunkFrame(index, cases, Some(p), version, raw, false)
      == FastPath.Frame(index, |cases|, [], [], true)
  {
  }

  lemma {:induction false} CasesTold(
    t: Tables, index: int, b: Step, raw: RunResult, others: Tables -> Tables, p: Persisted)
    requires b.BeginChunk? && ReadBack(t, p, b.requestId, b.cases) && |p.records| == |p.messages|
    requires VersionsMatch(p, b.version)
    ensures var done := Engine.ChunkFinish(others(t), ReplaySplit(p).pending, raw);
      var f := FastPath.ChunkFrame(index, b.cases, Some(p), b.version, raw, done.None?);
      forall cs | cs in b.cases :: RowTold(t, f, IdOf(t, b.requestId, cs), raw)
  {
    hide ReadBack, VersionsMatch, ReplaySplit, Engine.ChunkFinish, FastPath.ChunkFrame, IdOf;
    ReadBackMeans(t, p, b.requestId, b.cases, b.version);
    var failed := Engine.ChunkFinish(others(t), ReplaySplit(p).pending, raw).None?;
    forall cs | cs in b.cases
      ensures RowTold(t, FastPath.ChunkFrame(index, b.cases, Some(p), b.version, raw, failed),
        IdOf(t, b.requestId, cs), raw)
    {
      var i :| 0 <= i < |b.cases| && b.cases[i] == cs;
      var id := IdOf(t, b.requestId, cs);
      assert IdsOf(p.records)[i] == id;
      SplitMeans(t, p, b.requestId, b.cases, id);
      FrameMeans(index, b.cases, p, b.version, raw, failed, id);
    }
  }

  lemma {:induction false} SomeToPublish(t: Tables, requestId: string, cases: seq<Case>, p: Persisted)
    requires ReadBack(t, p, requestId, cases) && |p.records| == |p.messages|
    ensures ReplaySplit(p).pending != [] <==> exists cs :: cs in cases && ToPublish(t, requestId, cs)
  {
    ReadBackMeans(t, p, requestId, cases, "");
    ReplayOrigins(p);
    var pending := ReplaySplit(p).pending;
    hide ReadBack, ReplaySplit, IdOf;
    if pending != [] {
      assert ReadPending(p, pending[0]);
      var i :| 0 <= i < |p.records| && p.records[i] == pending[0] && p.messages[i].state.Pending?;
      assert IdsOf(p.records)[i] == pending[0].executionId && IdsOf(pending)[0] == pending[0].executionId;
      SplitMeans(t, p, requestId, cases, pending[0].executionId);
      assert ToPublish(t, requestId, cases[i]);
    }
    if exists cs :: cs in cases && ToPublish(t, requestId, cs) {
      var cs :| cs in cases && ToPublish(t, requestId, cs);
      var i :| 0 <= i < |cases| && cases[i] == cs;
      assert IdsOf(p.records)[i] == IdOf(t, requestId, cs);
      SplitMeans(t, p, requestId, cases, IdOf(t, requestId, cs));
    }
  }

  /** Every message that the chunk went on to publish is still PENDING. */
  ghost predicate StillFree(t1: Tables, t: Tables, requestId: string, cases: seq<Case>) {
    forall cs | cs in cases && ToPublish(t1, requestId, cs) ::
      IdOf(t1, requestId, cs) in t.outbox && t.outbox[IdOf(t1, requestId, cs)].state == Pending
  }

  /** A published id of the chunk as its committed write-back leaves it: PUBLISHED if the
      answer reports it, otherwise DEAD with a record in WAIT moved to DISPATCH_FAILED. */
  ghost predicate RowSettled(t: Tables, t': Tables, id: Id, raw: RunResult) {
    && id in t.outbox && id in t'.outbox && id in t.records && id in t'.records
    && (!Unpublished(raw, id) ==>
          PatchedTo(t.outbox[id], t'.outbox[id], ToPublished) && t'.records[id].status == t.records[id].status)
    && (Unpublished(raw, id) ==>
          && PatchedTo(t.outbox[id], t'.outbox[id], ToDead)
          && t'.records[id].status
               == if t.records[id].status == Wait then DispatchFailed else t.records[id].status)
  }

  /** From the tables t that the write-back finds to those that it leaves, with the error of
      the frame. */
  ghost predicate ChunkEnded(
    t1: Tables, t: Tables, t': Tables, requestId: string, cases: seq<Case>, raw: RunResult, error: bool)
  {
    if StillFree(t1, t, requestId, cases) then
      && (error <==> raw.error)
      && forall cs | cs in cases && ToPublish(t1, requestId, cs) :: RowSettled(t, t', IdOf(t1, requestId, cs), raw)
    else error && t' == t
  }

  /** What the write-back of a chunk comes to: if all its messages are still PENDING they are
      settled by the broker's answer, and the frame has an error exactly if the answer had
      one; otherwise nothing changes and the frame has an error. */
  lemma {:induction false} ChunkOutcome(
    c: RelayConfig, s: System, begin: Step, ph: Phases, index: int, others: Tables -> Tables)
    requires ValidConfig(c) && Inv(c, s) && begin.BeginChunk? && Enabled(c, s, begin)
    requires PhasesOk(c, Apply(c, s, begin), begin.actor, ph)
    requires others(Apply(c, s, begin).tables) == AtWriteBack(c, Apply(c, s, begin), begin.actor, ph).tables
    ensures var b, a, t1 := begin, begin.actor, Apply(c, s, begin).tables;
      var s4 := AtWriteBack(c, Apply(c, s, b), a, ph);
      Enabled(c, s4, WriteBack(a))
      && var f := Engine.ChunkCall(s.tables, index, b.requestId, b.cases, b.version, b.at, ph.raw, others).frame;
      ChunkEnded(t1, s4.tables, Apply(c, s4, WriteBack(a)).tables, b.requestId, b.cases, ph.raw, f.chunkError)
  {
    var b, a, s1 := begin, begin.actor, Apply(c, s, begin);
    var t1, s4 := s1.tables, AtWriteBack(c, s1, a, ph);
    hide Inv, PersistChunk, ReadBack, Enabled, Apply, VersionsMatch, ReplaySplit, PhasesOk, AtWriteBack, StillFree;
    hide Engine.ChunkCall, Engine.ChunkFinish, FastPath.ChunkFrame, ToPublish, IdOf, AfterPublish, RowSettled;
    hide WriteBackOf, ChunkDone, FailedMoved;
    var p := ChunkStored(c, s, b);
    var pending := ReplaySplit(p).pending;
    RemembersOwn(c, s1, a, ph);
    PhasesKeepInv(c, s, b, ph);
    PublishedChunk(c, pending, ph.raw);
    FastPathFencing(c, s4, a);
    Engine.ChunkFinishes(c, s4, a, pending, ph.raw);
    FrameError(s.tables, index, b, ph.raw, others, t1, p);
    FreeMeans(t1, s4.tables, b.requestId, b.cases, p, ph.raw);
    if StillFree(t1, s4.tables, b.requestId, b.cases) {
      ChunkSettles(c, s4, a, t1, b.requestId, b.cases, p, ph.raw);
    }
  }

  lemma {:induction false} FrameError(
    t: Tables, index: int, b: Step, raw: RunResult, others: Tables -> Tables, t1: Tables, p: Persisted)
    requires b.BeginChunk? && |p.records| == |p.messages| && VersionsMatch(p, b.version)
    requires PersistChunk(t, b.requestId, b.cases, b.version, b.at) == Some((t1, p))
    ensures var pending := ReplaySplit(p).pending;
      var f := Engine.ChunkCall(t, index, b.requestId, b.cases, b.version, b.at, raw, others).frame;
      f.chunkError <==> (pending != [] && raw.error) || Engine.ChunkFinish(others(t1), pending, raw).None?
  {
    hide VersionsMatch, ReplaySplit, Engine.ChunkCall, Engine.ChunkFinish, FastPath.ChunkFrame, PersistChunk;
    Engine.ChunkCallIs(t, index, b.requestId, b.cases, b.version, b.at, raw, others, t1, p);
    FrameMeans(index, b.cases, p, b.version, raw,
      Engine.ChunkFinish(others(t1), ReplaySplit(p).pending, raw).None?, 0);
  }

  lemma {:induction false} PhasesKeepInv(c: RelayConfig, s: System, begin: Step, ph: Phases)
    requires ValidConfig(c) && Inv(c, s) && Enabled(c, s, begin) && (begin.BeginSingle? || begin.BeginChunk?)
    requires PhasesOk(c, Apply(c, s, begin), begin.actor, ph)
    ensures Inv(c, AtWriteBack(c, Apply(c, s, begin), begin.actor, ph))
  {
    hide Inv, Apply, Enabled, Told;
    StepKeepsInv(c, s, begin);
    NothingTold(Apply(c, s, begin));
    PhasesKeepTold(c, Apply(c, s, begin), begin.actor, ph, [], []);
  }

  lemma {:induction false} PublishedChunk(c: RelayConfig, pending: seq<Record>, raw: RunResult)
    ensures AfterPublish(c, ChunkPersisted(pending), raw).ChunkPublished?
    ensures var result := AfterPublish(c, ChunkPersisted(pending), raw).result;
      && (forall id :: id in result.success <==> id in IdsOf(pending) && !Unpublished(raw, id))
      && (forall id :: id in result.failed <==> id in IdsOf(pending) && Unpublished(raw, id))
  {
    CompletePartitions(IdsOf(pending), raw);
    hide Complete;
  }

  lemma {:induction false} FreeMeans(
    t1: Tables, t: Tables, requestId: string, cases: seq<Case>, p: Persisted, raw: RunResult)
    requires ReadBack(t1, p, requestId, cases) && |p.records| == |p.messages|
    ensures StillFree(t1, t, requestId, cases) <==>
      forall id | id in IdsOf(ReplaySplit(p).pending) :: id in t.outbox && t.outbox[id].state.Pending?
  {
    hide ReadBack, ReplaySplit, IdOf, ToPublish;
    forall cs | cs in cases && ToPublish(t1, requestId, cs)
      ensures IdOf(t1, requestId, cs) in IdsOf(ReplaySplit(p).pending) {
      PendingCase(t1, requestId, cases, p, cs);
    }
    forall id | id in IdsOf(ReplaySplit(p).pending)
      ensures exists cs :: cs in cases && ToPublish(t1, requestId, cs) && IdOf(t1, requestId, cs) == id
    {
      CaseOfPending(t1, requestId, cases, p, id);
    }
  }

  lemma {:induction false} PendingCase(t1: Tables, requestId: string, cases: seq<Case>, p: Persisted, cs: Case)
    requires ReadBack(t1, p, requestId, cases) && |p.records| == |p.messages|
    requires cs in cases && ToPublish(t1, requestId, cs)
    ensures IdOf(t1, requestId, cs) in IdsOf(ReplaySplit(p).pending)
  {
    ReadBackMeans(t1, p, requestId, cases, "");
    var i :| 0 <= i < |cases| && cases[i] == cs;
    assert IdsOf(p.records)[i] == IdOf(t1, requestId, cs);
    SplitMeans(t1, p, requestId, cases, IdOf(t1, requestId, cs));
  }

  lemma {:induction false} CaseOfPending(t1: Tables, requestId: string, cases: seq<Case>, p: Persisted, id: Id)
    requires ReadBack(t1, p, requestId, cases) && |p.records| == |p.messages| && id in IdsOf(ReplaySplit(p).pending)
    ensures exists cs :: cs in cases && ToPublish(t1, requestId, cs) && IdOf(t1, requestId, cs) == id
  {
    ReadBackMeans(t1, p, requestId, cases, "");
    ReplayOrigins(p);
    var pending := ReplaySplit(p).pending;
    var k :| 0 <= k < |pending| && pending[k].executionId == id;
    assert pending[k] in pending && ReadPending(p, pending[k]);
    var i :| 0 <= i < |p.records| && p.records[i] == pending[k] && p.messages[i].state.Pending?;
    assert IdsOf(p.records)[i] == id;
    SplitMeans(t1, p, requestId, cases, id);
    assert ToPublish(t1, requestId, cases[i]);
  }

  lemma {:induction false} ChunkSettles(
    c: RelayConfig, s: System, a: Actor, t1: Tables, requestId: string, cases: seq<Case>, p: Persisted, raw: RunResult)
    requires Inv(c, s) && a in s.locals && ReadBack(t1, p, requestId, cases) && |p.records| == |p.messages|
    requires s.locals[a] == AfterPublish(c, ChunkPersisted(ReplaySplit(p).pending), raw)
    requires s.locals[a].ChunkPublished? && AllFree(s.tables, s.locals[a].result)
    ensures var t' := Apply(c, s, WriteBack(a)).tables;
      forall cs | cs in cases && ToPublish(t1, requestId, cs) :: RowSettled(s.tables, t', IdOf(t1, requestId, cs), raw)
  {
    hide Inv, Apply, ReadBack, ReplaySplit, AfterPublish, ToPublish, IdOf, WriteBackOf;
    var pending := ReplaySplit(p).pending;
    PublishedChunk(c, pending, raw);
    FastPathFencing(c, s, a);
    var t' := Apply(c, s, WriteBack(a)).tables;
    forall cs | cs in cases && ToPublish(t1, requestId, cs)
      ensures RowSettled(s.tables, t', IdOf(t1, requestId, cs), raw) {
      var id := IdOf(t1, requestId, cs);
      PendingCase(t1, requestId, cases, p, cs);
      assert id in s.locals[a].result.success || id in s.locals[a].result.failed;
      StoredRow(c, s, id);
    }
  }

  // ---- a relay pass ----------------------------------------------------------------------------

  /** The claimed rows are as the claim has left them. */
  ghost predicate ClaimKept(t1: Tables, t: Tables, ids: seq<Id>) {
    forall id | id in ids :: id in t1.outbox && id in t.outbox && t.outbox[id] == t1.outbox[id]
  }

  /** x has the largest attempt of the claimed rows that the answer does not report. */
  ghost predicate LastToRetry(t1: Tables, ids: seq<Id>, raw: RunResult, x: Id) {
    && x in ids && Unpublished(raw, x) && x in t1.outbox
    && forall y | y in ids && Unpublished(raw, y) && y in t1.outbox :: t1.outbox[y].attempts <= t1.outbox[x].attempts
  }

  /** The retry time is the claim's clock plus the intended delay of that attempt. */
  ghost predicate WaitsForLargest(c: RelayConfig, t1: Tables, claim: Step, raw: RunResult, at: Time)
    requires claim.Claim?
  {
    exists x :: LastToRetry(t1, claim.ids, raw, x)
      && at == claim.now + Backoff.Delay(c.initialBackoff, c.maxBackoff, t1.outbox[x].attempts)
  }

  /** A claimed row as its committed pass leaves it: PUBLISHED if the answer reports it;
      otherwise waiting for the delay of the largest failed attempt of the pass if it has
      attempts left, and else DEAD with a record in WAIT moved to DISPATCH_FAILED. */
  ghost predicate RowPassed(c: RelayConfig, t1: Tables, t: Tables, t': Tables, claim: Step, id: Id, raw: RunResult)
    requires claim.Claim?
  {
    && id in t1.outbox && id in t.records && id in t'.outbox && id in t'.records
    && var m, m' := t1.outbox[id], t'.outbox[id];
    && var before, after := t.records[id].status, t'.records[id].status;
    && (!Unpublished(raw, id) ==> PatchedTo(m, m', ToPublished) && after == before)
    && (Unpublished(raw, id) && m.attempts < c.maxAttempts ==>
          && PatchedTo(m, m', ToPending(m'.availableAt)) && after == before
          && (BackoffFits(c) ==> WaitsForLargest(c, t1, claim, raw, m'.availableAt)))
    && (Unpublished(raw, id) && m.attempts >= c.maxAttempts ==>
          PatchedTo(m, m', ToDead) && after == if before == Wait then DispatchFailed else before)
  }

  /** What a relay pass comes to: if nobody has touched its rows since the claim they are
      settled or put back by the broker's answer, otherwise nothing changes and the pass
      has an error. */
  lemma {:induction false} PassOutcome(
    c: RelayConfig, s: System, claim: Step, ph: Phases, others: Tables -> Tables)
    requires ValidConfig(c) && Inv(c, s) && claim.Claim? && claim.ids != [] && Enabled(c, s, claim)
    requires PhasesOk(c, Apply(c, s, claim), claim.actor, ph)
    requires others(Apply(c, s, claim).tables) == AtWriteBack(c, Apply(c, s, claim), claim.actor, ph).tables
    ensures var a, t1 := claim.actor, Apply(c, s, claim).tables;
      var s4 := AtWriteBack(c, Apply(c, s, claim), a, ph);
      Enabled(c, s4, WriteBack(a))
      && var t4, t5 := s4.tables, Apply(c, s4, WriteBack(a)).tables;
      var ok := Engine.PassCommits(c, s.tables, claim.ids, claim.now, claim.token, ph.raw, others);
      && (ok <==> ClaimKept(t1, t4, claim.ids))
      && if ClaimKept(t1, t4, claim.ids) then
        forall id | id in claim.ids :: RowPassed(c, t1, t4, t5, claim, id, ph.raw)
      else t5 == t4
  {
    var a, s1 := claim.actor, Apply(c, s, claim);
    var s4 := AtWriteBack(c, s1, a, ph);
    var copies := Copies(s.tables.outbox, claim.ids, claim.now + c.leaseDuration, claim.token);
    hide Inv, Enabled, Apply, PhasesOk, AtWriteBack, ClaimSelection, RowPassed, Untouched, WriteBackOf;
    hide Engine.PassCommits;
    ClaimTakes(c, s, claim);
    hide ClaimKept, Copies;
    RemembersOwn(c, s1, a, ph);
    StepKeepsInv(c, s, claim);
    NothingTold(s1);
    PhasesKeepTold(c, s1, a, ph, [], []);
    KeptIsUntouched(s1.tables, s4.tables, claim.ids, copies);
    LeaseFencing(c, s4, a);
    PassCommitsHere(c, s, claim, s4, ph.raw, others);
    if ClaimKept(s1.tables, s4.tables, claim.ids) {
      forall id | id in claim.ids ensures RowPassed(
        c, s1.tables, s4.tables, Apply(c, s4, WriteBack(a)).tables, claim, id, ph.raw)
      {
        RowPasses(c, s4, claim, s1.tables, copies, ph.raw, id);
      }
    }
  }

  lemma {:induction false} PassCommitsHere(
    c: RelayConfig, s: System, claim: Step, s4: System, raw: RunResult, others: Tables -> Tables)
    requires claim.Claim? && claim.ids != [] && Enabled(c, s, claim) && Enabled(c, s4, WriteBack(claim.actor))
    requires claim.actor in Apply(c, s, claim).locals && Apply(c, s, claim).locals[claim.actor].RelayClaimed?
    requires claim.actor in s4.locals
    requires s4.locals[claim.actor] == AfterPublish(c, Apply(c, s, claim).locals[claim.actor], raw)
    requires others(Apply(c, s, claim).tables) == s4.tables
    ensures s4.locals[claim.actor].RelayPublished?
    ensures Engine.PassCommits(c, s.tables, claim.ids, claim.now, claim.token, raw, others)
      <==> WriteBackOf(c, s4.tables, s4.locals[claim.actor]).Some?
  {
    hide Enabled, Apply, Copies, MakePlan, RetryAt, WriteBackOf, Engine.ClaimedTables;
    Engine.ClaimBegins(c, s, claim.actor, claim.now, claim.token, claim.locked, claim.ids);
    Engine.RelayFinishes(c, s4, claim.actor, Apply(c, s, claim).locals[claim.actor], raw);
    hide RelayWriteBack;
  }

  lemma {:induction false} ClaimTakes(c: RelayConfig, s: System, claim: Step)
    requires claim.Claim? && claim.ids != [] && Enabled(c, s, claim)
    ensures var s1 := Apply(c, s, claim);
      var copies := Copies(s.tables.outbox, claim.ids, claim.now + c.leaseDuration, claim.token);
      && claim.actor in s1.locals
      && s1.locals[claim.actor] == RelayClaimed(claim.token, claim.now, claim.ids, copies)
      && forall id | id in claim.ids :: id in copies && id in s1.tables.outbox && s1.tables.outbox[id] == copies[id]
  {
    SelectionDistinct(s.tables.outbox, claim.now, EffectiveLimit(c.batchSize), claim.locked, claim.ids);
    hide ClaimSelection;
  }

  lemma {:induction false} KeptIsUntouched(t1: Tables, t: Tables, ids: seq<Id>, copies: map<Id, Message>)
    requires forall id | id in ids :: id in copies && id in t1.outbox && t1.outbox[id] == copies[id]
    ensures ClaimKept(t1, t, ids) <==> Untouched(t, ids, copies)
  {
  }

  /** The holder's plan, by the answer. */
  lemma {:induction false} PlanOfAnswer(c: RelayConfig, l: Local, claim: Step, copies: map<Id, Message>, raw: RunResult)
    requires claim.Claim? && forall x | x in claim.ids :: x in copies
    requires l == AfterPublish(c, RelayClaimed(claim.token, claim.now, claim.ids, copies), raw)
    ensures l.RelayPublished? && l.token == claim.token && l.now == claim.now && l.ids == claim.ids
      && l.copies == copies
    ensures forall x | x in claim.ids ::
      && (x in l.plan.success <==> !Unpublished(raw, x))
      && (x in l.plan.retry <==> Unpublished(raw, x) && copies[x].attempts < c.maxAttempts)
      && (x in l.plan.dead <==> Unpublished(raw, x) && copies[x].attempts >= c.maxAttempts)
    ensures forall x | x in l.plan.retry :: x in claim.ids
  {
    PlanPartitions(claim.ids, copies, raw, c.maxAttempts);
    ConfirmedMeans(claim.ids, raw);
    hide MakePlan, Confirmed, Unpublished;
  }

  lemma {:induction false} RowPasses(
    c: RelayConfig, s: System, claim: Step, t1: Tables, copies: map<Id, Message>, raw: RunResult, id: Id)
    requires ValidConfig(c) && Inv(c, s) && claim.Claim? && claim.actor in s.locals && id in claim.ids
    requires s.locals[claim.actor] == AfterPublish(c, RelayClaimed(claim.token, claim.now, claim.ids, copies), raw)
    requires forall x | x in claim.ids :: x in copies && x in t1.outbox && t1.outbox[x] == copies[x]
    requires Untouched(s.tables, claim.ids, copies)
    ensures RowPassed(c, t1, s.tables, Apply(c, s, WriteBack(claim.actor)).tables, claim, id, raw)
  {
    hide Inv, Apply, Untouched, BackoffFits, LocalOk, PlanOk, RowOk, AfterPublish, Unpublished, WaitsForLargest;
    hide PlanDisjoint;
    var a := claim.actor;
    PlanOfAnswer(c, s.locals[a], claim, copies, raw);
    HolderRow(c, s, a, id);
    RelayOutcome(c, s, a, id);
    RelayStatuses(c, s, a);
    RowFinishes(c, s, a, id);
    if Unpublished(raw, id) && copies[id].attempts < c.maxAttempts && BackoffFits(c) {
      RetryWaits(c, s, claim, t1, copies, raw, id);
    }
  }

  /** By the state it has then, a finished row shows which patch it took. */
  lemma {:induction false} RowFinishes(c: RelayConfig, s: System, a: Actor, id: Id)
    requires ValidConfig(c) && Inv(c, s) && a in s.locals && s.locals[a].RelayPublished? && id in s.locals[a].ids
    requires Untouched(s.tables, s.locals[a].ids, s.locals[a].copies) && id in s.locals[a].copies
    ensures var t' := Apply(c, s, WriteBack(a)).tables;
      id in t'.outbox
      && var m, m' := s.locals[a].copies[id], t'.outbox[id];
      && (m'.state == OutboxState.Published ==> PatchedTo(m, m', ToPublished))
      && (m'.state == Pending ==> PatchedTo(m, m', ToPending(m'.availableAt)))
      && (m'.state == Dead ==> PatchedTo(m, m', ToDead))
  {
    hide Inv, Apply, Untouched, WriteBackOf, RetryAt;
    LeaseFencing(c, s, a);
  }

  lemma {:induction false} RetryWaits(
    c: RelayConfig, s: System, claim: Step, t1: Tables, copies: map<Id, Message>, raw: RunResult, id: Id)
    requires ValidConfig(c) && Inv(c, s) && BackoffFits(c)
    requires claim.Claim? && claim.actor in s.locals && id in claim.ids
    requires s.locals[claim.actor] == AfterPublish(c, RelayClaimed(claim.token, claim.now, claim.ids, copies), raw)
    requires forall x | x in claim.ids :: x in copies && x in t1.outbox && t1.outbox[x] == copies[x]
    requires Untouched(s.tables, claim.ids, copies) && Unpublished(raw, id) && copies[id].attempts < c.maxAttempts
    ensures var t' := Apply(c, s, WriteBack(claim.actor)).tables;
      id in t'.outbox && WaitsForLargest(c, t1, claim, raw, t'.outbox[id].availableAt)
  {
    hide Inv, Apply, Untouched, BackoffFits, AfterPublish, Unpublished;
    var a := claim.actor;
    PlanOfAnswer(c, s.locals[a], claim, copies, raw);
    RetryIsExact(c, s, a, id);
    var l, t' := s.locals[a], Apply(c, s, WriteBack(a)).tables;
    var x :| LargestFailed(l, x)
      && t'.outbox[id].availableAt == l.now + Backoff.Delay(c.initialBackoff, c.maxBackoff, l.copies[x].attempts);
    assert LastToRetry(t1, claim.ids, raw, x);
  }
}

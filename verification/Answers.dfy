/** What the fast paths answer stays true: other actors may step between the read-back,
    the publish and the write-back of a call, and for ever after it. */
module Answers {
  import opened Domain
  import opened BatchResult
  import opened Store
  import opened StoreEffects
  import opened Relay
  import opened Protocol
  import opened Invariant
  import opened Safety
  import opened RelayProgress
  import FastPath
  import Engine

  /** Ids answered as success were acknowledged and published, or at least taken by a
      relay; ids answered as failed are DEAD with their record out of WAIT. */
  ghost predicate Told(s: System, success: seq<Id>, failed: seq<Id>) {
    && (forall id | id in success :: id in s.tables.outbox
          && (s.tables.outbox[id].attempts > 0 || (s.tables.outbox[id].state.Published? && id in s.acked)))
    && (forall id | id in failed :: id in s.tables.outbox && s.tables.outbox[id].state.Dead?
          && id in s.tables.records && s.tables.records[id].status != Wait)
  }

  lemma {:induction false} StoredRow(c: RelayConfig, s: System, id: Id)
    requires Inv(c, s) && id in s.tables.outbox
    ensures id in s.tables.records
    ensures s.tables.outbox[id].state.Published? ==> id in s.acked
    ensures s.tables.outbox[id].state.Dead? ==> s.tables.records[id].status != Wait
    ensures s.tables.outbox[id].state.Processing? ==> s.tables.outbox[id].attempts > 0
  {
    assert id in s.tables.outbox.Keys && id in s.tables.records.Keys;
    assert RowOk(s, c.maxAttempts, id);
    if s.tables.outbox[id].state.Processing? {
      assert s.tables.outbox[id].leaseToken in ClaimsOf(s.claims, id);
    }
  }

  /** No step of anyone takes back what was told. */
  lemma {:induction false} ToldForEver(c: RelayConfig, s: System, steps: seq<Step>, success: seq<Id>, failed: seq<Id>)
    requires ValidConfig(c) && Inv(c, s) && ValidRun(c, s, steps) && Told(s, success, failed)
    ensures Told(Run(c, s, steps), success, failed)
  {
    hide Inv, ValidRun, Run;
    var s' := Run(c, s, steps);
    RunKeepsInv(c, s, steps);
    SettledForEver(c, s, steps);
    forall id | id in success || id in failed
      ensures id in s'.tables.outbox && s'.tables.outbox[id].attempts >= s.tables.outbox[id].attempts
    {
      AttemptsNeverFall(c, s, steps, id);
    }
    forall id | id in s'.tables.outbox ensures id in s'.tables.records
      && (s'.tables.outbox[id].state.Published? ==> id in s'.acked)
      && (s'.tables.outbox[id].state.Dead? ==> s'.tables.records[id].status != Wait)
    {
      StoredRow(c, s', id);
    }
  }

  lemma {:induction false} ReadsBack(
    t: Tables, t': Tables, p: Persisted, requestId: string, cases: seq<Case>, at: Time)
    requires PersistedOk(t, t', p, requestId, cases, at)
    ensures ReadBack(t', p, requestId, cases) && |p.records| == |p.messages|
  {
  }

  /** What the replay answers is told by the rows it has read. */
  lemma {:induction false} ReplayIsTold(
    c: RelayConfig, s: System, t: Tables, p: Persisted, requestId: string, cases: seq<Case>, version: string, at: Time)
    requires ValidConfig(c) && Inv(c, s) && requestId != ""
    requires PersistChunk(s.tables, requestId, cases, version, at) == Some((t, p))
    ensures |p.records| == |p.messages| && Inv(c, Commit(s, t))
    ensures Told(Commit(s, t), ReplaySplit(p).success, ReplaySplit(p).failed)
  {
    hide Inv, PersistChunk, PersistedOk, ReadBack, ReplaySplit, Wf, Paired, PendingOk;
    InvTables(c, s);
    var t', p' := PersistChunkEffect(s.tables, requestId, cases, version, at);
    CommitPersisted(c, s, t, p, requestId, cases, at);
    ReadsBack(s.tables, t, p, requestId, cases, at);
    Engine.SplitIsStored(t, p, requestId, cases);
    forall id | id in t.outbox ensures id in t.records
      && (t.outbox[id].state.Published? ==> id in s.acked)
      && (t.outbox[id].state.Dead? ==> t.records[id].status != Wait)
      && (t.outbox[id].state.Processing? ==> t.outbox[id].attempts > 0)
    {
      StoredRow(c, Commit(s, t), id);
    }
  }

  // ---- a call with steps of others in between ------------------------------------------------

  /** A fast-path call that publishes: its phases, with steps of other actors in between. */
  datatype Call = Call(begin: Step, phases: Phases)

  /** The call found something to publish and its write-back is about to commit. */
  ghost predicate CallOk(c: RelayConfig, s: System, k: Call) {
    && (k.begin.BeginSingle? || k.begin.BeginChunk?) && Enabled(c, s, k.begin)
    && PhasesOk(c, Apply(c, s, k.begin), k.begin.actor, k.phases)
    && Commits(c, AtWriteBack(c, Apply(c, s, k.begin), k.begin.actor, k.phases), k.begin.actor)
  }

  ghost predicate Commits(c: RelayConfig, s: System, a: Actor) {
    && a in s.locals && (s.locals[a].SinglePublished? || s.locals[a].ChunkPublished?)
    && WriteBackOf(c, s.tables, s.locals[a]).Some?
  }

  ghost function BeforeWriteBack(c: RelayConfig, s: System, k: Call): System
    requires CallOk(c, s, k)
  {
    AtWriteBack(c, Apply(c, s, k.begin), k.begin.actor, k.phases)
  }

  ghost function AfterCall(c: RelayConfig, s: System, k: Call): System
    requires CallOk(c, s, k)
  {
    Apply(c, BeforeWriteBack(c, s, k), WriteBack(k.begin.actor))
  }

  /** What was told holds up to the write-back of a call. */
  lemma {:induction false} PhasesKeepTold(
    c: RelayConfig, s: System, a: Actor, ph: Phases, success: seq<Id>, failed: seq<Id>)
    requires ValidConfig(c) && Inv(c, s) && PhasesOk(c, s, a, ph) && Told(s, success, failed)
    ensures Inv(c, AtWriteBack(c, s, a, ph)) && Told(AtWriteBack(c, s, a, ph), success, failed)
  {
    var s2, publish := Run(c, s, ph.beforePublish), Publish(a, ph.raw, ph.acks);
    var s3 := Apply(c, s2, publish);
    hide Inv, Enabled, Apply, Told;
    RunKeepsInv(c, s, ph.beforePublish);
    ToldForEver(c, s, ph.beforePublish, success, failed);
    StepKeepsInv(c, s2, publish);
    OneStepTold(c, s2, publish, success, failed);
    RunKeepsInv(c, s3, ph.beforeWriteBack);
    ToldForEver(c, s3, ph.beforeWriteBack, success, failed);
  }

  /** What the call remembers when it writes back is what it read, with its own answer;
      what the replay told still holds. */
  lemma {:induction false} CallRemembers(c: RelayConfig, s: System, k: Call, success: seq<Id>, failed: seq<Id>)
    requires ValidConfig(c) && Inv(c, s) && CallOk(c, s, k)
    requires Told(Apply(c, s, k.begin), success, failed)
    ensures var s1, s4, a := Apply(c, s, k.begin), BeforeWriteBack(c, s, k), k.begin.actor;
      && Inv(c, s4) && Told(s4, success, failed) && Enabled(c, s4, WriteBack(a))
      && a in s1.locals && (s1.locals[a].SinglePersisted? || s1.locals[a].ChunkPersisted?)
      && a in s4.locals && s4.locals[a] == AfterPublish(c, s1.locals[a], k.phases.raw)
  {
    var a, s1 := k.begin.actor, Apply(c, s, k.begin);
    BegunLocal(c, s, k.begin);
    assert a in s1.locals;
    hide Inv, Enabled, Apply, Told, AfterPublish, Commits, PhasesOk, AtWriteBack;
    StepKeepsInv(c, s, k.begin);
    PhasesKeepTold(c, s1, a, k.phases, success, failed);
    RemembersOwn(c, s1, a, k.phases);
  }

  lemma {:induction false} OneStepTold(c: RelayConfig, s: System, step: Step, success: seq<Id>, failed: seq<Id>)
    requires ValidConfig(c) && Inv(c, s) && Enabled(c, s, step) && Told(s, success, failed)
    ensures Told(Apply(c, s, step), success, failed)
  {
    hide Inv, Enabled, Apply, Told;
    RunCons(c, s, step, []);
    ToldForEver(c, s, [step] + [], success, failed);
  }

  lemma {:induction false} BegunLocal(c: RelayConfig, s: System, begin: Step)
    requires (begin.BeginSingle? || begin.BeginChunk?) && Enabled(c, s, begin)
    ensures var s1, a := Apply(c, s, begin), begin.actor;
      a in s1.locals ==> s1.locals[a].SinglePersisted? || s1.locals[a].ChunkPersisted?
  {
    hide PersistChunk, PersistSingle, Observe, ReplayChunk;
  }

  lemma {:induction false} WriteBackCommits(c: RelayConfig, s: System, a: Actor)
    requires Enabled(c, s, WriteBack(a)) && WriteBackOf(c, s.tables, s.locals[a]).Some?
    ensures Apply(c, s, WriteBack(a)).tables == WriteBackOf(c, s.tables, s.locals[a]).value
    ensures Apply(c, s, WriteBack(a)).acked == s.acked
  {
    hide WriteBackOf, Observe;
  }

  /** A chunk's write-back that commits settles the ids of its answer. */
  lemma {:induction false} ChunkCommitIsTold(c: RelayConfig, s: System, a: Actor)
    requires ValidConfig(c) && Inv(c, s) && Enabled(c, s, WriteBack(a)) && s.locals[a].ChunkPublished?
    requires WriteBackOf(c, s.tables, s.locals[a]).Some?
    ensures Told(Apply(c, s, WriteBack(a)), s.locals[a].result.success, s.locals[a].result.failed)
  {
    hide Inv, Apply, ChunkWriteBack;
    FastPathFencing(c, s, a);
    ChunkWriteBackEffect(s.tables, s.locals[a].pending, s.locals[a].result);
    WriteBackCommits(c, s, a);
  }

  lemma {:induction false} SingleCommitIsTold(c: RelayConfig, s: System, a: Actor)
    requires ValidConfig(c) && Inv(c, s) && Enabled(c, s, WriteBack(a)) && s.locals[a].SinglePublished?
    requires WriteBackOf(c, s.tables, s.locals[a]).Some?
    ensures var id, confirmed := s.locals[a].record.executionId, s.locals[a].confirmed;
      Told(Apply(c, s, WriteBack(a)), if confirmed then [id] else [], if confirmed then [] else [id])
  {
    hide Inv, Apply, SingleWriteBack, SingleFree;
    SingleFencing(c, s, a);
    WriteBackCommits(c, s, a);
  }

  // ---- the answers ---------------------------------------------------------------------------

  /** What a chunk call reads, and what it goes on with. */
  lemma {:induction false} ChunkReads(c: RelayConfig, s: System, begin: Step) returns (p: Persisted)
    requires ValidConfig(c) && Inv(c, s) && begin.BeginChunk? && Enabled(c, s, begin)
    ensures var r := PersistChunk(s.tables, begin.requestId, begin.cases, begin.version, begin.at);
      r.Some? && r.value.1 == p && |p.records| == |p.messages|
    ensures var s1, a := Apply(c, s, begin), begin.actor;
      && Told(s1, ReplaySplit(p).success, ReplaySplit(p).failed)
      && (a in s1.locals <==> VersionsMatch(p, begin.version) && ReplaySplit(p).pending != [])
      && (a in s1.locals ==> s1.locals[a] == ChunkPersisted(ReplaySplit(p).pending))
  {
    hide Inv, Wf, Paired, ReplaySplit, PersistChunk, ReadBack, Enabled, Apply;
    Engine.BeginsOnTables(c, s, begin);
    var t1, p1 := Engine.PersistReads(s.tables, begin.requestId, begin.cases, begin.version, begin.at);
    p := p1;
    ReplayIsTold(c, s, t1, p, begin.requestId, begin.cases, begin.version, begin.at);
    Engine.ChunkBegins(c, s, begin.actor, begin.requestId, begin.cases, begin.version, begin.at, t1, p);
    BeginKeepsAcked(c, s, begin);
  }

  lemma {:induction false} BeginKeepsAcked(c: RelayConfig, s: System, begin: Step)
    requires (begin.BeginSingle? || begin.BeginChunk?) && Enabled(c, s, begin)
    ensures Apply(c, s, begin).acked == s.acked
  {
    hide PersistChunk, PersistSingle, Observe, ReplayChunk;
  }

  lemma {:induction false} FrameOfCall(index: int, cases: seq<Case>, p: Persisted, version: string, raw: RunResult)
    requires |p.records| == |p.messages| && VersionsMatch(p, version) && ReplaySplit(p).pending != []
    ensures var f, r := FastPath.ChunkFrame(index, cases, Some(p), version, raw, false), ReplaySplit(p);
      var result := Complete(IdsOf(r.pending), raw);
      f.success == r.success + result.success && f.failed == r.failed + result.failed
  {
    hide ReplaySplit, Complete;
  }

  /** What others do to the tables between the two transactions of a call. */
  ghost predicate Interferes(c: RelayConfig, s: System, k: Call, others: Tables -> Tables)
    requires CallOk(c, s, k)
  {
    others(Apply(c, s, k.begin).tables) == BeforeWriteBack(c, s, k).tables
  }

  /** The frame that a chunk call returns when its write-back commits is true at that
      moment and for ever after, whatever ran in between. */
  lemma {:induction false} FramesStayTrue(
    c: RelayConfig, s: System, k: Call, index: int, others: Tables -> Tables, later: seq<Step>)
    requires ValidConfig(c) && Inv(c, s) && CallOk(c, s, k) && k.begin.BeginChunk? && Interferes(c, s, k, others)
    requires ValidRun(c, AfterCall(c, s, k), later)
    ensures var b := k.begin;
      var f := Engine.ChunkCall(s.tables, index, b.requestId, b.cases, b.version, b.at, k.phases.raw, others).frame;
      Told(Run(c, AfterCall(c, s, k), later), f.success, f.failed)
  {
    var begin, a, raw := k.begin, k.begin.actor, k.phases.raw;
    var s4 := BeforeWriteBack(c, s, k);
    assert Commits(c, s4, a) && Enabled(c, s, begin) && others(Apply(c, s, begin).tables) == s4.tables;
    hide Inv, CallOk, Interferes, BeforeWriteBack, Told, ReplaySplit, Complete, Enabled, Apply, PersistChunk;
    hide WriteBackOf, ValidRun, Run, Engine.ChunkCall, Engine.ChunkFinish, VersionsMatch;
    var p := ChunkReads(c, s, begin);
    var r := ReplaySplit(p);
    var result := Complete(IdsOf(r.pending), raw);
    CallRemembers(c, s, k, r.success, r.failed);
    ChunkCommitIsTold(c, s4, a);
    OneStepTold(c, s4, WriteBack(a), r.success, r.failed);
    BothTold(Apply(c, s4, WriteBack(a)), r.success, r.failed, result.success, result.failed);
    StepKeepsInv(c, s4, WriteBack(a));
    ToldForEver(c, AfterCall(c, s, k), later, r.success + result.success, r.failed + result.failed);
    FrameOfCall(index, begin.cases, p, begin.version, raw);
    Engine.ChunkFinishes(c, s4, a, r.pending, raw);
    CallFrame(s.tables, index, begin, raw, others, p);
    hide FastPath.ChunkFrame, AfterPublish;
  }

  lemma {:induction false} CallFrame(
    t: Tables, index: int, begin: Step, raw: RunResult, others: Tables -> Tables, p: Persisted)
    requires begin.BeginChunk? && |p.records| == |p.messages|
    requires var r := PersistChunk(t, begin.requestId, begin.cases, begin.version, begin.at);
      r.Some? && r.value.1 == p
    ensures var t1 := PersistChunk(t, begin.requestId, begin.cases, begin.version, begin.at).value.0;
      var done := Engine.ChunkFinish(others(t1), ReplaySplit(p).pending, raw);
      Engine.ChunkCall(t, index, begin.requestId, begin.cases, begin.version, begin.at, raw, others).frame
        == FastPath.ChunkFrame(index, begin.cases, Some(p), begin.version, raw,
             VersionsMatch(p, begin.version) && done.None?)
  {
    hide PersistChunk, ReplaySplit, Engine.ChunkCall, Engine.ChunkFinish, FastPath.ChunkFrame;
    var t1 := PersistChunk(t, begin.requestId, begin.cases, begin.version, begin.at).value.0;
    Engine.ChunkCallIs(t, index, begin.requestId, begin.cases, begin.version, begin.at, raw, others, t1, p);
  }

  lemma {:induction false} BothTold(s: System, a: seq<Id>, b: seq<Id>, x: seq<Id>, y: seq<Id>)
    requires Told(s, a, b) && Told(s, x, y)
    ensures Told(s, a + x, b + y)
  {
  }

  /** A chunk with nothing left to publish is answered from what is stored; the frame it
      returns stays true as well. */
  lemma {:induction false} ReplayedFramesStayTrue(
    c: RelayConfig, s: System, begin: Step, index: int, raw: RunResult, others: Tables -> Tables, later: seq<Step>)
    requires ValidConfig(c) && Inv(c, s) && begin.BeginChunk? && Enabled(c, s, begin)
    requires begin.actor !in Apply(c, s, begin).locals && ValidRun(c, Apply(c, s, begin), later)
    ensures var b := begin;
      var f := Engine.ChunkCall(s.tables, index, b.requestId, b.cases, b.version, b.at, raw, others).frame;
      Told(Run(c, Apply(c, s, begin), later), f.success, f.failed)
  {
    hide Inv, Told, ReplaySplit, Complete, Enabled, Apply, PersistChunk, ValidRun, Run, VersionsMatch;
    hide Engine.ChunkCall, Engine.ChunkFinish, FastPath.ChunkFrame;
    var p := ChunkReads(c, s, begin);
    var r := ReplaySplit(p);
    StepKeepsInv(c, s, begin);
    ToldForEver(c, Apply(c, s, begin), later, r.success, r.failed);
    NothingTold(Run(c, Apply(c, s, begin), later));
    var t1 := PersistChunk(s.tables, begin.requestId, begin.cases, begin.version, begin.at).value.0;
    Engine.NothingToFinish(others(t1), raw);
    CallFrame(s.tables, index, begin, raw, others, p);
    ReplayedFrame(index, begin.cases, p, begin.version, raw);
  }

  lemma {:induction false} ReplayedFrame(index: int, cases: seq<Case>, p: Persisted, version: string, raw: RunResult)
    requires |p.records| == |p.messages| && (VersionsMatch(p, version) ==> ReplaySplit(p).pending == [])
    ensures var f := FastPath.ChunkFrame(index, cases, Some(p), version, raw, false);
      if VersionsMatch(p, version) then f.success == ReplaySplit(p).success && f.failed == ReplaySplit(p).failed
      else f.success == [] && f.failed == []
  {
    hide ReplaySplit, VersionsMatch, Complete;
  }

  lemma {:induction false} NothingTold(s: System)
    ensures Told(s, [], [])
  {
  }

  /** What a single call reads, and what it goes on with. */
  lemma {:induction false} SingleReads(
    c: RelayConfig, s: System, begin: Step) returns (t1: Tables, r: Record, m: Message)
    requires ValidConfig(c) && Inv(c, s) && begin.BeginSingle? && Enabled(c, s, begin)
    ensures PersistSingle(s.tables, begin.requestId, begin.c, begin.version, begin.at)
      == Some((t1, Persisted([r], [m])))
    ensures ReadBack(t1, Persisted([r], [m]), begin.requestId, [begin.c])
    ensures var s1, a := Apply(c, s, begin), begin.actor;
      && s1.tables == t1
      && Told(s1, if ReplayStatus(m) == Some(Wait) then [r.executionId] else [],
           if ReplayStatus(m) == Some(DispatchFailed) then [r.executionId] else [])
      && (a in s1.locals <==> r.version == begin.version && ReplayStatus(m) == None)
      && (a in s1.locals ==> s1.locals[a] == SinglePersisted(r))
  {
    hide Inv, Wf, Paired, ReadBack, Enabled, Apply, PersistChunk, PersistSingle, ReplaySplit;
    Engine.BeginsOnTables(c, s, begin);
    t1, r, m := Engine.SingleReadsOne(s.tables, begin.requestId, begin.c, begin.version, begin.at);
    ReplayIsTold(c, s, t1, Persisted([r], [m]), begin.requestId, [begin.c], begin.version, begin.at);
    Engine.SplitOfOne(r, m);
    Engine.SingleBegins(c, s, begin, t1, r, m);
    BeginKeepsAcked(c, s, begin);
  }

  /** The reply of a single call whose write-back commits is true at that moment and for
      ever after, whatever ran in between. */
  lemma {:induction false} RepliesStayTrue(
    c: RelayConfig, s: System, k: Call, others: Tables -> Tables, later: seq<Step>)
    requires ValidConfig(c) && Inv(c, s) && CallOk(c, s, k) && k.begin.BeginSingle? && Interferes(c, s, k, others)
    requires ValidRun(c, AfterCall(c, s, k), later)
    ensures var b := k.begin;
      var reply := Engine.CaseCall(s.tables, b.requestId, Some(b.c), b.version, b.at, k.phases.raw, others).reply;
      reply.Reply? && !reply.error && ReplyTold(Run(c, AfterCall(c, s, k), later), reply)
  {
    var begin, a, raw := k.begin, k.begin.actor, k.phases.raw;
    var s4 := BeforeWriteBack(c, s, k);
    assert Commits(c, s4, a) && Enabled(c, s, begin) && others(Apply(c, s, begin).tables) == s4.tables;
    hide Inv, CallOk, BeforeWriteBack, Told, ReplyTold, Enabled, Apply, PersistSingle, WriteBackOf, ValidRun, Run;
    hide ReadBack, SingleWriteBack, Interferes, Commits, Engine.CaseCall;
    var t1, r, m := SingleReads(c, s, begin);
    CallRemembers(c, s, k, [], []);
    SingleCommitIsTold(c, s4, a);
    Engine.SingleFinishes(c, s4, a, r, raw);
    ToldReply(Apply(c, s4, WriteBack(a)), r.executionId, SingleConfirmed(raw));
    StepKeepsInv(c, s4, WriteBack(a));
    ReplyForEver(c, AfterCall(c, s, k), later,
      Engine.Reply(r.executionId, Some(if SingleConfirmed(raw) then Wait else DispatchFailed), false));
    CallReply(s.tables, begin, raw, others, t1, r, m);
  }

  lemma {:induction false} CallReply(
    t: Tables, begin: Step, raw: RunResult, others: Tables -> Tables, t1: Tables, r: Record, m: Message)
    requires begin.BeginSingle? && begin.version != ""
    requires PersistSingle(t, begin.requestId, begin.c, begin.version, begin.at) == Some((t1, Persisted([r], [m])))
    ensures var done := SingleWriteBack(others(t1), r.executionId, SingleConfirmed(raw));
      Engine.CaseCall(t, begin.requestId, Some(begin.c), begin.version, begin.at, raw, others).reply
        == if r.version != begin.version then Engine.Reply(r.executionId, None, true)
           else if ReplayStatus(m).Some? then Engine.Reply(r.executionId, ReplayStatus(m), false)
           else Engine.Reply(r.executionId, Some(if SingleConfirmed(raw) then Wait else DispatchFailed), done.None?)
  {
    hide PersistSingle, SingleWriteBack, SingleConfirmed, ReplayStatus;
  }

  /** A reply without an error is WAIT for a message that is settled or in a relay's hands, or
      DISPATCH_FAILED for one that is dead. */
  ghost predicate ReplyTold(s: System, reply: Engine.Reply) {
    reply.Reply? && !reply.error ==>
      && reply.status in {Some(Wait), Some(DispatchFailed)}
      && Told(s, if reply.status == Some(Wait) then [reply.executionId] else [],
        if reply.status == Some(DispatchFailed) then [reply.executionId] else [])
  }

  lemma {:induction false} ToldReply(s: System, id: Id, confirmed: bool)
    requires Told(s, if confirmed then [id] else [], if confirmed then [] else [id])
    ensures ReplyTold(s, Engine.Reply(id, Some(if confirmed then Wait else DispatchFailed), false))
  {
    hide Told;
  }

  lemma {:induction false} ReplyForEver(c: RelayConfig, s: System, steps: seq<Step>, reply: Engine.Reply)
    requires ValidConfig(c) && Inv(c, s) && ValidRun(c, s, steps) && ReplyTold(s, reply)
    ensures ReplyTold(Run(c, s, steps), reply)
  {
    hide Inv, Told, ValidRun, Run;
    if reply.Reply? && !reply.error {
      ToldForEver(c, s, steps, if reply.status == Some(Wait) then [reply.executionId] else [],
        if reply.status == Some(DispatchFailed) then [reply.executionId] else []);
    }
  }

  /** So is the reply that is answered from what is stored. */
  lemma {:induction false} ReplayedRepliesStayTrue(
    c: RelayConfig, s: System, begin: Step, raw: RunResult, others: Tables -> Tables, later: seq<Step>)
    requires ValidConfig(c) && Inv(c, s) && begin.BeginSingle? && Enabled(c, s, begin)
    requires begin.actor !in Apply(c, s, begin).locals && ValidRun(c, Apply(c, s, begin), later)
    ensures var b := begin;
      var reply := Engine.CaseCall(s.tables, b.requestId, Some(b.c), b.version, b.at, raw, others).reply;
      ReplyTold(Run(c, Apply(c, s, begin), later), reply)
  {
    Engine.BeginsOnTables(c, s, begin);
    hide Inv, Told, Enabled, Apply, PersistSingle, ValidRun, Run, ReplayStatus, ReadBack, Engine.CaseCall;
    hide SingleWriteBack;
    var t1, r, m := SingleReads(c, s, begin);
    StepKeepsInv(c, s, begin);
    CallReply(s.tables, begin, raw, others, t1, r, m);
    if r.version == begin.version {
      ReplyForEver(c, Apply(c, s, begin), later, Engine.Reply(r.executionId, ReplayStatus(m), false));
    }
  }

  // ---- calls that run alone --------------------------------------------------------------------

  /** What is still to publish is free: its messages are PENDING. */
  lemma {:induction false} PendingIsFree(t: Tables, p: Persisted, requestId: string, cases: seq<Case>)
    requires ReadBack(t, p, requestId, cases)
    ensures forall r | r in ReplaySplit(p).pending ::
      r.executionId in t.outbox && t.outbox[r.executionId].state.Pending?
  {
    ReplayOrigins(p);
    forall r | r in ReplaySplit(p).pending
      ensures r.executionId in t.outbox && t.outbox[r.executionId].state.Pending?
    {
      assert ReadPending(p, r);
      var i :| 0 <= i < |p.records| && p.records[i] == r && p.messages[i].state.Pending?;
      assert ReadBackAt(t, p.records[i], p.messages[i], (requestId, cases[i].caseId));
    }
  }

  lemma {:induction false} CommitsWhenFree(c: RelayConfig, s: System, a: Actor)
    requires Inv(c, s) && a in s.locals && s.locals[a].ChunkPublished? && AllFree(s.tables, s.locals[a].result)
    ensures Commits(c, s, a)
  {
    assert LocalOk(s, c.maxAttempts, s.locals[a]);
    hide Inv, ChunkWriteBack, AllFree;
    FreeChunkCommits(s, s.locals[a].pending, s.locals[a].result);
  }

  lemma {:induction false} AnswerIsFree(c: RelayConfig, t: Tables, pending: seq<Record>, raw: RunResult)
    requires forall r | r in pending :: r.executionId in t.outbox && t.outbox[r.executionId].state.Pending?
    ensures AllFree(t, AfterPublish(c, ChunkPersisted(pending), raw).result)
  {
    var ids := IdsOf(pending);
    CompletePartitions(ids, raw);
    forall id | id in ids ensures id in t.outbox && t.outbox[id].state.Pending? {
      var i :| 0 <= i < |ids| && ids[i] == id;
      assert pending[i] in pending;
    }
    hide Complete, IdsOf;
  }

  /** A publish with nobody else in between. */
  function Alone(raw: RunResult, acks: set<Id>): Phases {
    Phases([], raw, acks, [])
  }

  lemma {:induction false} AlonePhases(c: RelayConfig, s: System, a: Actor, raw: RunResult, acks: set<Id>)
    requires Enabled(c, s, Publish(a, raw, acks))
    ensures PhasesOk(c, s, a, Alone(raw, acks))
    ensures AtWriteBack(c, s, a, Alone(raw, acks)) == Apply(c, s, Publish(a, raw, acks))
  {
    hide AfterPublish, HonestResult;
  }

  /** A chunk that runs alone from any reachable state commits, whatever the broker
      answers: it is a call of the kind that FramesStayTrue is about. */
  lemma {:induction false} AloneIsCall(c: RelayConfig, s: System, begin: Step, raw: RunResult, acks: set<Id>)
    requires ValidConfig(c) && Inv(c, s) && begin.BeginChunk? && Enabled(c, s, begin)
    requires begin.actor in Apply(c, s, begin).locals
    requires Enabled(c, Apply(c, s, begin), Publish(begin.actor, raw, acks))
    ensures CallOk(c, s, Call(begin, Alone(raw, acks)))
  {
    var a, s1 := begin.actor, Apply(c, s, begin);
    var s3 := Apply(c, s1, Publish(a, raw, acks));
    hide Inv, Enabled, Apply, AfterPublish, Commits, ReplaySplit, PhasesOk, AtWriteBack;
    PublishedHere(c, s1, Publish(a, raw, acks));
    AlonePhases(c, s1, a, raw, acks);
    var p := ChunkReads(c, s, begin);
    ChunkReadsFree(c, s, begin, p);
    AnswerIsFree(c, s1.tables, ReplaySplit(p).pending, raw);
    StepKeepsInv(c, s, begin);
    StepKeepsInv(c, s1, Publish(a, raw, acks));
    assert s3.locals[a] == AfterPublish(c, s1.locals[a], raw);
    AfterChunk(c, ReplaySplit(p).pending, raw);
    CommitsWhenFree(c, s3, a);
  }

  lemma {:induction false} AfterChunk(c: RelayConfig, pending: seq<Record>, raw: RunResult)
    ensures AfterPublish(c, ChunkPersisted(pending), raw).ChunkPublished?
  {
  }

  /** A single call that runs alone from any reachable state commits exactly when its
      publish succeeded or the stored record is in WAIT: the executor's callback may have
      moved it while its message was still PENDING. */
  lemma {:induction false} AloneSingleCommits(c: RelayConfig, s: System, begin: Step, raw: RunResult, acks: set<Id>)
    requires ValidConfig(c) && Inv(c, s) && begin.BeginSingle? && Enabled(c, s, begin)
    requires begin.actor in Apply(c, s, begin).locals
    requires Enabled(c, Apply(c, s, begin), Publish(begin.actor, raw, acks))
    ensures var l := Apply(c, s, begin).locals[begin.actor];
      l.SinglePersisted?
      && (CallOk(c, s, Call(begin, Alone(raw, acks))) <==> SingleConfirmed(raw) || l.record.status == Wait)
  {
    var a, s1 := begin.actor, Apply(c, s, begin);
    var s3 := Apply(c, s1, Publish(a, raw, acks));
    hide Inv, Enabled, Apply, AfterPublish, PhasesOk;
    hide AtWriteBack, PersistSingle, ReadBack, WriteBackOf, SingleConfirmed;
    PublishedHere(c, s1, Publish(a, raw, acks));
    AlonePhases(c, s1, a, raw, acks);
    var t1, r, m := SingleReads(c, s, begin);
    ReadsStored(t1, r, m, begin.requestId, begin.c);
    StepKeepsInv(c, s, begin);
    StepKeepsInv(c, s1, Publish(a, raw, acks));
    assert s3.locals[a] == AfterPublish(c, SinglePersisted(r), raw);
    AfterSingle(c, r, raw);
    SingleFencing(c, s3, a);
  }

  lemma {:induction false} AfterSingle(c: RelayConfig, r: Record, raw: RunResult)
    ensures AfterPublish(c, SinglePersisted(r), raw) == SinglePublished(r, SingleConfirmed(raw))
  {
  }

  lemma {:induction false} ReadsStored(t: Tables, r: Record, m: Message, requestId: string, cs: Case)
    requires ReadBack(t, Persisted([r], [m]), requestId, [cs])
    ensures r.executionId in t.records && t.records[r.executionId] == r
    ensures r.executionId in t.outbox && t.outbox[r.executionId] == m
  {
    assert ReadBackAt(t, r, m, (requestId, [cs][0].caseId));
  }

  lemma {:induction false} ChunkReadsFree(c: RelayConfig, s: System, begin: Step, p: Persisted)
    requires ValidConfig(c) && Inv(c, s) && begin.BeginChunk? && Enabled(c, s, begin)
    requires var r := PersistChunk(s.tables, begin.requestId, begin.cases, begin.version, begin.at);
      r.Some? && r.value.1 == p && |p.records| == |p.messages|
    ensures var o := Apply(c, s, begin).tables.outbox;
      forall r | r in ReplaySplit(p).pending :: r.executionId in o && o[r.executionId].state.Pending?
  {
    hide Inv, Wf, Paired, ReplaySplit, PersistChunk, ReadBack, Enabled, Apply;
    Engine.BeginsOnTables(c, s, begin);
    var t1, p1 := Engine.PersistReads(s.tables, begin.requestId, begin.cases, begin.version, begin.at);
    Engine.ChunkBegins(c, s, begin.actor, begin.requestId, begin.cases, begin.version, begin.at, t1, p1);
    PendingIsFree(t1, p1, begin.requestId, begin.cases);
  }
}

/** The fast path of a chunk: records and tasks, idempotent replay, progress frames. */
module FastPath {
  import opened Domain
  import opened BatchResult
  import opened Store
  import opened StoreEffects
  import opened Relay
  import opened Protocol
  import opened Invariant
  import opened Safety

  // ---- replay -----------------------------------------------------------------------

  function InStates(t: Tables, states: set<OutboxState>): set<Id> {
    set id | id in t.outbox && t.outbox[id].state in states
  }

  /** The read-back messages are the stored rows of the read-back records. */
  ghost predicate MessagesStored(t: Tables, p: Persisted) {
    && |p.records| == |p.messages|
    && forall i | 0 <= i < |p.records| ::
         p.records[i].executionId in t.outbox && p.messages[i] == t.outbox[p.records[i].executionId]
  }

  /** The replay split sorts the chunk, in order, by what the message table says:
      taken or published ids are answered as success, dead ones as failed, and only
      untouched ones are published again. */
  lemma {:induction false} ReplaySorts(t: Tables, p: Persisted)
    requires MessagesStored(t, p)
    ensures var r := ReplaySplit(p);
      var ids := IdsOf(p.records);
      && r.success == Only(ids, InStates(t, {OutboxState.Published, Processing}))
      && r.failed == Only(ids, InStates(t, {Dead}))
      && IdsOf(r.pending) == Only(ids, InStates(t, {Pending}))
      && (forall x | x in r.pending :: x in p.records)
    decreases |p.records|
  {
    if p.records != [] {
      var n := |p.records| - 1;
      var q := Persisted(p.records[..n], p.messages[..n]);
      ReplaySorts(t, q);
      var ids := IdsOf(p.records);
      assert ids[..n] == IdsOf(q.records);
      var taken, dead, free := InStates(t, {OutboxState.Published, Processing}), InStates(t, {Dead}),
        InStates(t, {Pending});
      var state := p.messages[n].state;
      assert ids[n] in taken <==> state.Published? || state.Processing?;
      assert ids[n] in dead <==> state.Dead?;
      assert ids[n] in free <==> state.Pending?;
      hide InStates, MessagesStored;
      assert IdsOf(ReplaySplit(q).pending + [p.records[n]])
        == IdsOf(ReplaySplit(q).pending) + [p.records[n].executionId];
    }
  }

  lemma {:induction false} ThreeWaySplit(ids: seq<Id>, a: set<Id>, b: set<Id>, c: set<Id>)
    requires forall id | id in ids :: (id in a) != (id in b || id in c) && !(id in b && id in c)
    ensures multiset(Only(ids, a)) + multiset(Only(ids, b)) + multiset(Only(ids, c)) == multiset(ids)
  {
    if ids != [] {
      var n := |ids| - 1;
      ThreeWaySplit(ids[..n], a, b, c);
      assert ids == ids[..n] + [ids[n]];
    }
  }

  lemma {:induction false} ObserveNothing(c: RelayConfig, s: System)
    requires Inv(c, s)
    ensures Commit(s, s.tables) == s
  {
    var seen := Observe(s.history, s.tables.records);
    forall id | id in s.tables.records ensures id in s.history && seen[id] == s.history[id] {
      assert HistoryOk(s, id);
    }
    assert forall id :: id in seen <==> id in s.history;
    assert seen == s.history;
  }

  /** The copies that a chunk call writes back agree on each id: they are copies of
      stored rows, marked by one failed list. */
  lemma {:induction false} MarkedCopiesAgree(
    t: Tables, p: Persisted, requestId: string, cases: seq<Case>, failed: seq<Id>)
    requires ReadBack(t, p, requestId, cases)
    ensures OneStatusPerId(MarkFailed(ReplaySplit(p).pending, failed))
  {
    var pending := ReplaySplit(p).pending;
    ReplayOrigins(p);
    forall r | r in pending ensures r.executionId in t.records && r == t.records[r.executionId] {
      assert ReadPending(p, r);
      var i :| 0 <= i < |p.records| && p.records[i] == r;
      assert ReadBackAt(t, p.records[i], p.messages[i], (requestId, cases[i].caseId));
    }
    forall i, j | 0 <= i < |pending| && 0 <= j < |pending| && pending[i].executionId == pending[j].executionId
      ensures pending[i] == pending[j]
    {
      assert pending[i] in pending && pending[j] in pending;
    }
  }

  /** Every case of the chunk is already stored under the request id. */
  ghost predicate Known(t: Tables, requestId: string, cases: seq<Case>) {
    forall c | c in cases :: (requestId, c.caseId) in t.byRequest
  }

  /** The stored execution ids of a known chunk, in the order of its cases. */
  function StoredIds(t: Tables, requestId: string, cases: seq<Case>): (ids: seq<Id>)
    requires forall i | 0 <= i < |cases| :: (requestId, cases[i].caseId) in t.byRequest
    ensures |ids| == |cases|
  {
    seq(|cases|, i requires 0 <= i < |cases| => t.byRequest[(requestId, cases[i].caseId)])
  }

  ghost predicate AllSettled(t: Tables, ids: seq<Id>, version: string) {
    forall id | id in ids :: id in t.records && id in t.outbox && t.records[id].version == version
      && (t.outbox[id].state.Published? || t.outbox[id].state.Dead?)
  }

  lemma {:induction false} SettledSplit(t: Tables, p: Persisted, requestId: string, cases: seq<Case>, version: string)
    requires ReadBack(t, p, requestId, cases)
    requires forall i | 0 <= i < |cases| :: (requestId, cases[i].caseId) in t.byRequest
    requires AllSettled(t, StoredIds(t, requestId, cases), version)
    ensures |p.records| == |p.messages|
    ensures var ids := StoredIds(t, requestId, cases);
      ReplayChunk(p, version) ==
        Replayed(Only(ids, InStates(t, {OutboxState.Published})), Only(ids, InStates(t, {Dead})), [])
  {
    var ids := StoredIds(t, requestId, cases);
    ReadBackIsStored(t, p, requestId, cases);
    ReplaySorts(t, p);
    OnlySame(ids, InStates(t, {OutboxState.Published, Processing}), InStates(t, {OutboxState.Published}));
    NoneOf(ids, InStates(t, {Pending}));
    assert |IdsOf(ReplaySplit(p).pending)| == 0;
    forall i | 0 <= i < |p.records| ensures p.records[i].version == version {
      assert IdsOf(p.records)[i] == ids[i] && ids[i] in ids;
      assert ReadBackAt(t, p.records[i], p.messages[i], (requestId, cases[i].caseId));
    }
  }

  /** Re-running a chunk with the same version once all its messages are settled
      changes nothing in the whole system, leaves nothing to publish, and answers
      PUBLISHED ids as success and DEAD ids as failed, in chunk order. */
  lemma {:induction false} SettledChunkReplays(
    c: RelayConfig, s: System, actor: Actor, requestId: string, cases: seq<Case>, version: string, at: Time)
    returns (p: Persisted)
    requires Inv(c, s) && Enabled(c, s, BeginChunk(actor, requestId, cases, version, at))
    requires forall i | 0 <= i < |cases| :: (requestId, cases[i].caseId) in s.tables.byRequest
    requires AllSettled(s.tables, StoredIds(s.tables, requestId, cases), version)
    ensures PersistChunk(s.tables, requestId, cases, version, at) == Some((s.tables, p))
    ensures |p.records| == |p.messages|
    ensures var ids := StoredIds(s.tables, requestId, cases);
      ReplayChunk(p, version) ==
        Replayed(Only(ids, InStates(s.tables, {OutboxState.Published})), Only(ids, InStates(s.tables, {Dead})), [])
    ensures Apply(c, s, BeginChunk(actor, requestId, cases, version, at)) == s
  {
    var t := s.tables;
    assert forall c' | c' in cases :: (requestId, c'.caseId) in t.byRequest;
    assert Wf(t) && Paired(t);
    ObserveNothing(c, s);
    hide Inv, Wf, Paired, PersistChunk, ReadBack, AllSettled;
    p := PersistKnownChunk(t, requestId, cases, version, at);
    SettledSplit(t, p, requestId, cases, version);
  }

  lemma {:induction false} ReadBackIsStored(t: Tables, p: Persisted, requestId: string, cases: seq<Case>)
    requires ReadBack(t, p, requestId, cases)
    ensures MessagesStored(t, p)
    ensures forall i | 0 <= i < |cases| :: (requestId, cases[i].caseId) in t.byRequest
    ensures IdsOf(p.records) == StoredIds(t, requestId, cases)
  {
  }

  lemma {:induction false} OnlySame(ids: seq<Id>, a: set<Id>, b: set<Id>)
    requires forall id | id in ids :: id in a <==> id in b
    ensures Only(ids, a) == Only(ids, b)
  {
    if ids != [] {
      OnlySame(ids[..|ids| - 1], a, b);
    }
  }

  lemma {:induction false} NoneOf(ids: seq<Id>, s: set<Id>)
    requires forall id | id in ids :: id !in s
    ensures Only(ids, s) == []
  {
    if ids != [] {
      NoneOf(ids[..|ids| - 1], s);
    }
  }

  /** Every call with the same request and case gets the same execution id, however
      many steps of whatever kind lie between the two calls. */
  lemma {:induction false} SameRequestSameExecution(
    c: RelayConfig, s: System, t1: Tables, p1: Persisted, steps: seq<Step>, requestId: string,
    cases1: seq<Case>, version1: string, at1: Time, cases2: seq<Case>, version2: string, at2: Time, i: nat, j: nat)
    returns (p2: Persisted)
    requires ValidConfig(c) && Inv(c, s) && requestId != ""
    requires PersistChunk(s.tables, requestId, cases1, version1, at1) == Some((t1, p1))
    requires ValidRun(c, Commit(s, t1), steps)
    requires i < |cases1| && j < |cases2| && cases1[i].caseId == cases2[j].caseId
    ensures var later := Run(c, Commit(s, t1), steps).tables;
      && PersistChunk(later, requestId, cases2, version2, at2).Some?
      && PersistChunk(later, requestId, cases2, version2, at2).value.1 == p2
    ensures i < |p1.records| && j < |p2.records| && p1.records[i].executionId == p2.records[j].executionId
  {
    assert Wf(s.tables) && Paired(s.tables);
    var t', p' := PersistChunkEffect(s.tables, requestId, cases1, version1, at1);
    CommitPersisted(c, s, t1, p1, requestId, cases1, at1);
    assert ReadBackAt(t1, p1.records[i], p1.messages[i], (requestId, cases1[i].caseId));
    var later := Run(c, Commit(s, t1), steps);
    RunKeepsInv(c, Commit(s, t1), steps);
    SettledForEver(c, Commit(s, t1), steps);
    p2 := ReadsIndexedId(later.tables, requestId, cases2, version2, at2, j, c, later);
  }

  /** A read-back returns the execution id that the unique index holds. */
  lemma {:induction false} ReadsIndexedId(
    t: Tables, requestId: string, cases: seq<Case>, version: string, at: Time, j: nat, c: RelayConfig, s: System)
    returns (p: Persisted)
    requires Inv(c, s) && t == s.tables && requestId != "" && j < |cases|
    ensures PersistChunk(t, requestId, cases, version, at).Some?
    ensures PersistChunk(t, requestId, cases, version, at).value.1 == p
    ensures j < |p.records|
    ensures (requestId, cases[j].caseId) in t.byRequest ==>
      p.records[j].executionId == t.byRequest[(requestId, cases[j].caseId)]
  {
    assert Wf(t) && Paired(t);
    var t2, q := PersistChunkEffect(t, requestId, cases, version, at);
    p := q;
    hide Inv, Wf, Paired;
    assert ReadBackAt(t2, p.records[j], p.messages[j], (requestId, cases[j].caseId));
  }

  /** A version mismatch ends the call with an error frame, but phase one has already
      committed: the tables are unchanged if and only if every case was known. */
  lemma {:induction false} MismatchKeepsNewRows(
    c: RelayConfig, s: System, actor: Actor, requestId: string, cases: seq<Case>, version: string, at: Time)
    returns (t': Tables, p: Persisted)
    requires Inv(c, s) && Enabled(c, s, BeginChunk(actor, requestId, cases, version, at))
    ensures PersistChunk(s.tables, requestId, cases, version, at) == Some((t', p))
    ensures |p.records| == |p.messages|
    ensures ReplayChunk(p, version).VersionMismatch? ==>
      var s' := Apply(c, s, BeginChunk(actor, requestId, cases, version, at));
      && s'.locals == s.locals
      && (s'.tables == s.tables <==> Known(s.tables, requestId, cases))
  {
    assert Wf(s.tables) && Paired(s.tables);
    t', p := PersistChunkEffect(s.tables, requestId, cases, version, at);
    UnknownChunkGrows(s.tables, t', p, requestId, cases, version, at);
    hide Inv, Wf, Paired, PersistChunk, PersistedOk;
  }

  lemma {:induction false} UnknownChunkGrows(
    t: Tables, t': Tables, p: Persisted, requestId: string, cases: seq<Case>, version: string, at: Time)
    requires Wf(t) && Paired(t) && requestId != ""
    requires PersistChunk(t, requestId, cases, version, at) == Some((t', p))
    requires PersistedOk(t, t', p, requestId, cases, at)
    ensures |p.records| == |p.messages|
    ensures t' == t <==> Known(t, requestId, cases)
  {
    if Known(t, requestId, cases) {
      var p' := PersistKnownChunk(t, requestId, cases, version, at);
    } else {
      var cs :| cs in cases && (requestId, cs.caseId) !in t.byRequest;
      var i :| 0 <= i < |cases| && cases[i] == cs;
      assert ReadBackAt(t', p.records[i], p.messages[i], (requestId, cases[i].caseId));
    }
  }

  // ---- progress frames ------------------------------------------------------------------

  datatype Frame = Frame(chunkIndex: int, chunkSize: int, success: seq<Id>, failed: seq<Id>, chunkError: bool)

  /** What dispatchOneBatch reports for a chunk, given what phase one returned, what
      the executor answered and whether the write-back failed. */
  function ChunkFrame(
    index: int, cases: seq<Case>, outcome: Option<Persisted>, version: string, raw: RunResult,
    writeBackFailed: bool): Frame
    requires outcome.Some? ==> |outcome.value.records| == |outcome.value.messages|
  {
    match outcome
    case None => Frame(index, |cases|, [], [], true)
    case Some(p) =>
      match ReplayChunk(p, version)
      case VersionMismatch => Frame(index, |cases|, [], [], true)
      case Replayed(success, failed, pending) =>
        var run := if pending == [] then RunResult([], [], false) else Complete(IdsOf(pending), raw);
        Frame(index, |cases|, success + run.success, failed + run.failed, run.error || writeBackFailed)
  }

  ghost predicate DistinctCases(cases: seq<Case>) {
    forall i, j | 0 <= i < j < |cases| :: cases[i].caseId != cases[j].caseId
  }

  /** Every frame lists each execution id of its chunk exactly once across success and
      failed, or lists none and carries an error, whatever the executor answered. */
  lemma {:induction false} FrameConservesIds(
    t: Tables, index: int, cases: seq<Case>, requestId: string, outcome: Option<Persisted>, version: string,
    raw: RunResult, writeBackFailed: bool)
    requires DistinctCases(cases)
    requires outcome.Some? ==> ReadBack(t, outcome.value, requestId, cases)
    ensures var f := ChunkFrame(index, cases, outcome, version, raw, writeBackFailed);
      && f.chunkIndex == index && f.chunkSize == |cases|
      && (|| (f.success == [] && f.failed == [] && f.chunkError)
          || (&& outcome.Some?
              && multiset(f.success) + multiset(f.failed) == multiset(IdsOf(outcome.value.records))
              && Distinct(f.success + f.failed)
              && |f.success| + |f.failed| == f.chunkSize))
  {
    if outcome.Some? && VersionsMatch(outcome.value, version) {
      var p := outcome.value;
      var f := ChunkFrame(index, cases, outcome, version, raw, writeBackFailed);
      FrameMultiset(t, index, cases, requestId, p, version, raw, writeBackFailed);
      ReadBackIsStored(t, p, requestId, cases);
      DistinctExecutions(t, p, requestId, cases);
      hide ReadBack, ChunkFrame;
      PermutationOfDistinct(IdsOf(p.records), f.success, f.failed);
    }
  }

  lemma {:induction false} PermutationOfDistinct(ids: seq<Id>, a: seq<Id>, b: seq<Id>)
    requires Distinct(ids) && multiset(a) + multiset(b) == multiset(ids)
    ensures Distinct(a + b) && |a| + |b| == |ids|
  {
    CountsOfDistinct(ids);
    assert multiset(a + b) == multiset(ids);
    DistinctCounts(a + b);
    assert |multiset(a + b)| == |multiset(ids)|;
  }

  lemma {:induction false} FrameMultiset(
    t: Tables, index: int, cases: seq<Case>, requestId: string, p: Persisted, version: string,
    raw: RunResult, writeBackFailed: bool)
    requires ReadBack(t, p, requestId, cases) && VersionsMatch(p, version)
    ensures var f := ChunkFrame(index, cases, Some(p), version, raw, writeBackFailed);
      multiset(f.success) + multiset(f.failed) == multiset(IdsOf(p.records))
  {
    var ids := IdsOf(p.records);
    ReadBackIsStored(t, p, requestId, cases);
    ReplaySorts(t, p);
    var taken, dead, free := InStates(t, {OutboxState.Published, Processing}), InStates(t, {Dead}),
      InStates(t, {Pending});
    StatesPartition(t, ids);
    ThreeWaySplit(ids, free, taken, dead);
    var r := ReplaySplit(p);
    assert multiset(r.success) + multiset(r.failed) + multiset(IdsOf(r.pending)) == multiset(ids);
    FrameOfSplit(index, cases, p, version, raw, writeBackFailed);
  }

  lemma {:induction false} FrameOfSplit(
    index: int, cases: seq<Case>, p: Persisted, version: string, raw: RunResult, writeBackFailed: bool)
    requires |p.records| == |p.messages| && VersionsMatch(p, version)
    ensures var f := ChunkFrame(index, cases, Some(p), version, raw, writeBackFailed);
      var r := ReplaySplit(p);
      multiset(f.success) + multiset(f.failed) == multiset(r.success) + multiset(r.failed) + multiset(IdsOf(r.pending))
  {
    var r := ReplaySplit(p);
    var ids := IdsOf(r.pending);
    var run := if r.pending == [] then RunResult([], [], false) else Complete(ids, raw);
    SplitConserves(ids, Confirmed(raw));
    assert r.pending == [] ==> ids == [];
    assert multiset(run.success) + multiset(run.failed) == multiset(ids);
    assert ReplayChunk(p, version) == Replayed(r.success, r.failed, r.pending);
    hide ReplaySplit, Complete;
    var f := ChunkFrame(index, cases, Some(p), version, raw, writeBackFailed);
    assert f.success == r.success + run.success && f.failed == r.failed + run.failed;
  }

  lemma {:induction false} StatesPartition(t: Tables, ids: seq<Id>)
    requires forall id | id in ids :: id in t.outbox
    ensures var taken, dead, free :=
        InStates(t, {OutboxState.Published, Processing}), InStates(t, {Dead}), InStates(t, {Pending});
      forall id | id in ids :: (id in free) != (id in taken || id in dead) && !(id in taken && id in dead)
  {
    forall id | id in ids
      ensures id in InStates(t, {Pending}) <==> t.outbox[id].state.Pending?
      ensures id in InStates(t, {Dead}) <==> t.outbox[id].state.Dead?
      ensures id in InStates(t, {OutboxState.Published, Processing}) <==>
        t.outbox[id].state.Published? || t.outbox[id].state.Processing?
    {
    }
  }

  /** Distinct cases of one request have distinct execution ids. */
  lemma {:induction false} DistinctExecutions(t: Tables, p: Persisted, requestId: string, cases: seq<Case>)
    requires DistinctCases(cases) && ReadBack(t, p, requestId, cases)
    ensures Distinct(IdsOf(p.records))
  {
  }

  // ---- tasks ----------------------------------------------------------------------------

  /** BatchAssemble: a record without a case name is skipped. */
  function Assembled(rs: seq<Record>, names: map<Id, string>): seq<Task> {
    if rs == [] then []
    else
      var r := rs[|rs| - 1];
      Assembled(rs[..|rs| - 1], names) +
        if r.caseId in names then [Task(r.executionId, r.caseId, names[r.caseId], r.version)] else []
  }

  /** A record with a case name is not skipped; its task has the record's ids and version
      and the name that the caller knows. */
  lemma {:induction false} AssembleKeepsAll(rs: seq<Record>, names: map<Id, string>)
    requires forall r | r in rs :: r.caseId in names
    ensures var tasks := Assembled(rs, names);
      && |tasks| == |rs|
      && forall i | 0 <= i < |rs| ::
           tasks[i] == Task(rs[i].executionId, rs[i].caseId, names[rs[i].caseId], rs[i].version)
  {
    if rs != [] {
      AssembleKeepsAll(rs[..|rs| - 1], names);
    }
  }

  /** The task of record i, under the name that the map gives its case. */
  predicate TaskFor(task: Task, rs: seq<Record>, i: nat, names: map<Id, string>) {
    && i < |rs| && rs[i].caseId in names
    && task == Task(rs[i].executionId, rs[i].caseId, names[rs[i].caseId], rs[i].version)
  }

  /** Exactly the records with a name have got a task. */
  lemma {:induction false} AssembledMeans(rs: seq<Record>, names: map<Id, string>)
    ensures forall task | task in Assembled(rs, names) :: exists i: nat :: TaskFor(task, rs, i, names)
    ensures forall i: nat, task | TaskFor(task, rs, i, names) :: task in Assembled(rs, names)
    ensures |Assembled(rs, names)| <= |rs|
  {
    if rs != [] {
      var n := |rs| - 1;
      AssembledMeans(rs[..n], names);
      forall task | task in Assembled(rs[..n], names) ensures exists i: nat :: TaskFor(task, rs, i, names) {
        var i: nat :| TaskFor(task, rs[..n], i, names);
        assert TaskFor(task, rs, i, names);
      }
      forall i: nat, task | TaskFor(task, rs, i, names) ensures task in Assembled(rs, names) {
        assert i < n ==> TaskFor(task, rs[..n], i, names);
      }
      if rs[n].caseId in names {
        assert TaskFor(Task(rs[n].executionId, rs[n].caseId, names[rs[n].caseId], rs[n].version), rs, n, names);
      }
    }
  }

  /** Every pending record of a read-back chunk gets a task, in order, with the ids and
      the version of its stored message. The task is the one a relay would send exactly
      when the case still has the name that the message has kept. */
  lemma {:induction false} PendingTasks(t: Tables, p: Persisted, requestId: string, cases: seq<Case>)
    requires Wf(t) && Paired(t) && ReadBack(t, p, requestId, cases)
    ensures var names, pending := NameMap(cases), ReplaySplit(p).pending;
      var tasks := Assembled(pending, names);
      && |tasks| == |pending|
      && forall i | 0 <= i < |pending| :: pending[i].executionId in t.outbox && pending[i].caseId in names
           && SentAs(tasks[i], t.outbox[pending[i].executionId], names[pending[i].caseId])
  {
    var names, pending := NameMap(cases), ReplaySplit(p).pending;
    ReplayOrigins(p);
    forall r | r in pending
      ensures r.executionId in t.outbox && r.caseId in names
      ensures SentAs(Task(r.executionId, r.caseId, names[r.caseId], r.version), t.outbox[r.executionId],
        names[r.caseId])
    {
      assert ReadPending(p, r);
      var i :| 0 <= i < |p.records| && p.records[i] == r && p.messages[i].state.Pending?;
      assert ReadBackAt(t, p.records[i], p.messages[i], (requestId, cases[i].caseId));
      assert PairedRow(t, r.executionId) && RowKeyed(t, r.executionId) && RecordIndexed(t, r.executionId);
    }
    hide ReplaySplit, SentAs;
    AssembleKeepsAll(pending, names);
  }

  /** The task is that of one of the cases, under its stored execution id and version. */
  ghost predicate TaskOfCase(task: Task, r: Record, requestId: string, cases: seq<Case>) {
    exists i: nat :: CaseOf(r, requestId, cases, i)
      && task == Task(r.executionId, cases[i].caseId, cases[i].caseName, r.version)
  }

  ghost predicate CaseOf(r: Record, requestId: string, cases: seq<Case>, i: nat) {
    i < |cases| && LastOf(cases, i) && RequestKey(r) == (requestId, cases[i].caseId)
  }

  /** What is published for a chunk: for each pending record, in order, the task of its own
      case, named as the catalogue names it now. */
  lemma {:induction false} TasksCarryCases(t: Tables, p: Persisted, requestId: string, cases: seq<Case>)
    requires ReadBack(t, p, requestId, cases)
    ensures var pending := ReplaySplit(p).pending;
      var tasks := Assembled(pending, NameMap(cases));
      && |tasks| == |pending|
      && forall k | 0 <= k < |pending| :: TaskOfCase(tasks[k], pending[k], requestId, cases)
  {
    var names, pending := NameMap(cases), ReplaySplit(p).pending;
    ReplayOrigins(p);
    forall r | r in pending ensures r.caseId in names && RequestKey(r).0 == requestId {
      assert ReadPending(p, r);
      var i :| 0 <= i < |p.records| && p.records[i] == r && p.messages[i].state.Pending?;
      assert ReadBackAt(t, p.records[i], p.messages[i], (requestId, cases[i].caseId));
    }
    AssembleKeepsAll(pending, names);
    var tasks := Assembled(pending, names);
    hide ReplaySplit, Assembled, NameMap, ReadBack;
    forall k | 0 <= k < |pending| ensures TaskOfCase(tasks[k], pending[k], requestId, cases) {
      assert pending[k] in pending;
      var i := NamesAreOfCases(cases, pending[k].caseId);
      assert CaseOf(pending[k], requestId, cases, i);
    }
  }

  predicate SentAs(task: Task, m: Message, name: string) {
    && task.executionId == m.executionId && task.caseId == m.caseId && task.version == m.version
    && (task == TaskOf(m) <==> name == m.caseName)
  }

  method BatchAssemble(rs: seq<ExecutionRecord>, names: map<Id, string>) returns (tasks: seq<Task>)
    ensures tasks == Assembled(Values(rs), names)
  {
    tasks := [];
    for i := 0 to |rs|
      invariant tasks == Assembled(Values(rs[..i]), names)
    {
      assert Values(rs[..i + 1])[..i] == Values(rs[..i]);
      var r := rs[i];
      if r.caseId in names {
        tasks := tasks + [Task(r.executionId, r.caseId, names[r.caseId], r.version)];
      }
    }
    assert rs[..|rs|] == rs;
  }

  lemma {:induction false} NamesMean(cases: seq<Case>)
    ensures forall i | 0 <= i < |cases| && LastOf(cases, i) :: NameMap(cases)[cases[i].caseId] == cases[i].caseName
    ensures forall id | id in NameMap(cases) :: exists i :: 0 <= i < |cases| && cases[i].caseId == id
  {
    forall i | 0 <= i < |cases| && LastOf(cases, i) ensures NameMap(cases)[cases[i].caseId] == cases[i].caseName {
      LastNameWins(cases, i);
    }
    forall id | id in NameMap(cases) ensures exists i :: 0 <= i < |cases| && cases[i].caseId == id {
      var i := NamesAreOfCases(cases, id);
    }
  }

  /** CreateBatchRecordsForRequest. */
  method CreateBatchRecords(requestId: string, cases: seq<Case>, version: string)
    returns (rs: seq<ExecutionRecord>, names: map<Id, string>)
    ensures Separate(rs) && fresh(rs)
    ensures Values(rs) == NewRecords(requestId, cases, version)
    ensures forall i | 0 <= i < |cases| ::
      rs[i].requestId == requestId && rs[i].caseId == cases[i].caseId && rs[i].version == version
      && rs[i].executionStatus == Wait
    ensures names == NameMap(cases)
    ensures forall i | 0 <= i < |cases| && LastOf(cases, i) ::
      cases[i].caseId in names && names[cases[i].caseId] == cases[i].caseName
    ensures forall id | id in names :: exists i :: 0 <= i < |cases| && cases[i].caseId == id
  {
    rs, names := [], map[];
    for i := 0 to |cases|
      invariant |rs| == i && Separate(rs) && fresh(rs)
      invariant forall k | 0 <= k < i :: rs[k].Value() == NewRecord(requestId, cases[k].caseId, version)
      invariant names == NameMap(cases[..i])
    {
      assert cases[..i + 1][..i] == cases[..i];
      var r := new ExecutionRecord(requestId, cases[i].caseId, version);
      rs := rs + [r];
      names := names[cases[i].caseId := cases[i].caseName];
    }
    assert cases[..|cases|] == cases;
    NamesMean(cases);
  }

  /** DispatchBatch: marks the failed records in place. */
  method DispatchBatch(rs: seq<ExecutionRecord>, failed: seq<Id>, now: Time)
    requires Separate(rs)
    modifies rs
    ensures Values(rs) == MarkFailed(old(Values(rs)), failed)
  {
    for i := 0 to |rs|
      invariant forall k | 0 <= k < i :: rs[k].Value() == MarkFailed(old(Values(rs)), failed)[k]
      invariant forall k | i <= k < |rs| :: rs[k].Value() == old(Values(rs))[k]
    {
      var r := rs[i];
      if r.executionId in failed {
        var ok := r.MarkAsDispatchFailed(now);
      }
    }
  }

  /** The loop's state after i rounds: the split of what it has read. */
  ghost predicate Splitting(
    rs: seq<ExecutionRecord>, messages: seq<Message>, i: nat, success: seq<Id>, failed: seq<Id>,
    pending: seq<ExecutionRecord>)
    reads rs, pending
  {
    && i <= |rs| == |messages|
    && ReplaySplit(Persisted(Values(rs[..i]), messages[..i])) == Replayed(success, failed, Values(pending))
  }

  lemma {:induction false} SplitStarts(rs: seq<ExecutionRecord>, messages: seq<Message>)
    requires |rs| == |messages|
    ensures Splitting(rs, messages, 0, [], [], [])
  {
    assert Values(rs[..0]) == [] && messages[..0] == [];
    assert ReplaySplit(Persisted([], [])) == Replayed([], [], []);
  }

  lemma {:induction false} SplitNext(
    rs: seq<ExecutionRecord>, messages: seq<Message>, i: nat, success: seq<Id>, failed: seq<Id>,
    pending: seq<ExecutionRecord>)
    requires i < |rs| && Splitting(rs, messages, i, success, failed, pending)
    ensures match ReplayStatus(messages[i])
      case Some(status) =>
        if status == DispatchFailed then
          Splitting(rs, messages, i + 1, success, failed + [rs[i].executionId], pending)
        else Splitting(rs, messages, i + 1, success + [rs[i].executionId], failed, pending)
      case None => Splitting(rs, messages, i + 1, success, failed, pending + [rs[i]])
  {
    assert rs[..i + 1] == rs[..i] + [rs[i]] && messages[..i + 1] == messages[..i] + [messages[i]];
    ValuesNext(rs[..i], rs[i]);
    ValuesNext(pending, rs[i]);
    ReplayNext(Values(rs[..i]), rs[i].Value(), messages[..i], messages[i]);
    hide ReplaySplit, Values;
  }

  lemma {:induction false} SplitEnds(
    rs: seq<ExecutionRecord>, messages: seq<Message>, version: string, success: seq<Id>, failed: seq<Id>,
    pending: seq<ExecutionRecord>)
    requires Splitting(rs, messages, |rs|, success, failed, pending) && forall r | r in rs :: r.version == version
    ensures ReplayChunk(Persisted(Values(rs), messages), version) == Replayed(success, failed, Values(pending))
  {
    AllOfVersion(rs, version);
    assert rs[..|rs|] == rs && messages[..|messages|] == messages;
    hide ReplaySplit, Values;
  }

  lemma {:induction false} OtherVersion(rs: seq<ExecutionRecord>, messages: seq<Message>, version: string, i: nat)
    requires i < |rs| == |messages| && rs[i].version != version
    ensures ReplayChunk(Persisted(Values(rs), messages), version).VersionMismatch?
  {
    assert Values(rs)[i].version != version;
  }

  /** The replay loop of dispatchOneBatch. */
  method SplitReplay(rs: seq<ExecutionRecord>, messages: seq<Message>, version: string)
    returns (success: seq<Id>, failed: seq<Id>, pending: seq<ExecutionRecord>, mismatch: bool)
    requires |rs| == |messages|
    ensures mismatch == ReplayChunk(Persisted(Values(rs), messages), version).VersionMismatch?
    ensures !mismatch ==>
      ReplayChunk(Persisted(Values(rs), messages), version) == Replayed(success, failed, Values(pending))
    ensures forall r | r in pending :: r in rs
    ensures Separate(rs) ==> Separate(pending)
  {
    hide Splitting, ReplayChunk, Values, Separate;
    success, failed, pending, mismatch := [], [], [], false;
    SplitStarts(rs, messages);
    NoneSeparate();
    for i := 0 to |rs|
      invariant forall r | r in pending :: r in rs[..i]
      invariant Separate(rs) ==> Separate(pending)
      invariant forall k | 0 <= k < i :: rs[k].version == version
      invariant Splitting(rs, messages, i, success, failed, pending)
    {
      if rs[i].version != version {
        OtherVersion(rs, messages, version, i);
        return [], [], [], true;
      }
      SplitNext(rs, messages, i, success, failed, pending);
      match ReplayStatus(messages[i]) {
        case Some(status) =>
          if status == DispatchFailed {
            failed := failed + [rs[i].executionId];
          } else {
            success := success + [rs[i].executionId];
          }
        case None =>
          SeparateNext(rs, i, pending);
          pending := pending + [rs[i]];
      }
    }
    SplitEnds(rs, messages, version, success, failed, pending);
  }

  lemma NoneSeparate()
    ensures Separate([])
  {
  }

  lemma AllOfVersion(rs: seq<ExecutionRecord>, version: string)
    requires forall r | r in rs :: r.version == version
    ensures forall ms: seq<Message> | |ms| == |rs| :: VersionsMatch(Persisted(Values(rs), ms), version)
  {
  }

  lemma SeparateNext(rs: seq<ExecutionRecord>, i: nat, pending: seq<ExecutionRecord>)
    requires i < |rs| && forall r | r in pending :: r in rs[..i]
    ensures Separate(rs) && Separate(pending) ==> Separate(pending + [rs[i]])
  {
    if Separate(rs) {
      assert rs[i] !in rs[..i];
    }
  }

  lemma {:induction false} ReplayNext(rs: seq<Record>, r: Record, ms: seq<Message>, m: Message)
    requires |rs| == |ms|
    ensures var rest := ReplaySplit(Persisted(rs, ms));
      ReplaySplit(Persisted(rs + [r], ms + [m])) == match ReplayStatus(m)
        case Some(status) =>
          if status == DispatchFailed then rest.(failed := rest.failed + [r.executionId])
          else rest.(success := rest.success + [r.executionId])
        case None => rest.(pending := rest.pending + [r])
  {
  }
}

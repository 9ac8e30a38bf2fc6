/** The three entry points on one database: a relay pass, one chunk of a batch, and a
    single case. Other transactions may commit between their own; `others` is what those
    make of the tables. Each entry point is proved against the table functions, and each
    takes exactly the steps of one actor of Protocol. */
module Engine {
  import opened Domain
  import opened BatchResult
  import opened Store
  import opened Relay
  import opened Repository
  import opened StoreEffects
  import Protocol
  import FastPath
  import Backoff
  import opened Invariant

  /** A relay pass from its claim to its write-back, with what others commit in between:
      the claim stays when the write-back rolls back. */
  function PassTables(
    c: RelayConfig, t: Tables, ids: seq<Id>, now: Time, token: string, raw: RunResult, others: Tables -> Tables): Tables
  {
    if ids == [] then t
    else
      var copies := Copies(t.outbox, ids, now + c.leaseDuration, token);
      var base := others(ClaimedTables(c, t, ids, now, token));
      var plan := MakePlan(ids, copies, raw, c.maxAttempts);
      match RelayWriteBack(base, token, copies, plan, RetryAt(c, now, plan.maxAttempt))
      case Some(t') => t'
      case None => base
  }

  /** The pass has nothing to do, or its write-back commits. */
  predicate PassCommits(
    c: RelayConfig, t: Tables, ids: seq<Id>, now: Time, token: string, raw: RunResult, others: Tables -> Tables)
  {
    ids == [] ||
      var copies := Copies(t.outbox, ids, now + c.leaseDuration, token);
      var plan := MakePlan(ids, copies, raw, c.maxAttempts);
      RelayWriteBack(others(ClaimedTables(c, t, ids, now, token)), token, copies, plan,
        RetryAt(c, now, plan.maxAttempt)).Some?
  }

  lemma {:induction false} ClaimedById(
    outbox: map<Id, Message>, ids: seq<Id>, messages: seq<Message>, until: Time, token: string)
    requires Distinct(ids) && |messages| == |ids|
    requires forall i | 0 <= i < |ids| :: ids[i] in outbox && outbox[ids[i]].executionId == ids[i]
    requires forall i | 0 <= i < |ids| :: messages[i] == Leased(outbox[ids[i]], until, token)
    ensures ById(messages) == Copies(outbox, ids, until, token)
  {
    var copies := Copies(outbox, ids, until, token);
    forall i | 0 <= i < |ids|
      ensures ids[i] in copies && messages[i] == copies[ids[i]] && messages[i].executionId == ids[i]
    {
    }
    ByIdIsLookup(ids, copies, messages);
  }

  /** The part of DispatchOnce after the publish: split the answer, write it back. */
  method FinishPass(
    db: Database, c: RelayConfig, now: Time, token: string, ids: seq<Id>, messages: seq<Message>,
    ghost copies: map<Id, Message>, raw: RunResult)
    returns (ok: bool)
    requires ValidConfig(c) && c.maxBackoff < Backoff.TWO_63 && c.initialBackoff < Backoff.TWO_63
    requires |messages| == |ids| && forall i | 0 <= i < |ids| :: messages[i].executionId == ids[i]
    requires copies == ById(messages) && forall id | id in ids :: id in copies
    modifies db
    ensures var plan := MakePlan(ids, copies, raw, c.maxAttempts);
      var r := RelayWriteBack(old(db.Value()), token, copies, plan, RetryAt(c, now, plan.maxAttempt));
      ok == r.Some? && db.Value() == if ok then r.value else old(db.Value())
  {
    hide MakePlan, RelayWriteBack, DeadRecords, ById, RetryAt, ValidConfig;
    var plan, dead := SplitFailures(ids, messages, raw, c.maxAttempts);
    PlanPartitions(ids, copies, raw, c.maxAttempts);
    var delay := RetryDelay(c, plan.maxAttempt);
    ok := db.RelayWriteBackTx(token, copies, plan, dead, now + delay);
  }

  method RetryDelay(c: RelayConfig, maxAttempt: int) returns (delay: int)
    requires ValidConfig(c) && c.maxBackoff < Backoff.TWO_63 && c.initialBackoff < Backoff.TWO_63
    ensures forall now :: now + delay == RetryAt(c, now, maxAttempt)
  {
    delay := Backoff.RetryBackoff(c.initialBackoff, c.maxBackoff, maxAttempt);
  }

  lemma {:induction false} ClaimFacts(
    c: RelayConfig, t: Tables, now: Time, token: string, locked: set<Id>, ids: seq<Id>, messages: seq<Message>)
    requires Wf(t) && ClaimSelection(t.outbox, now, EffectiveLimit(c.batchSize), locked, ids)
    requires |messages| == |ids|
    requires var o := ClaimRows(t.outbox, ids, now + c.leaseDuration, token);
      forall i | 0 <= i < |ids| :: ids[i] in o && messages[i] == o[ids[i]]
    ensures Copies(t.outbox, ids, now + c.leaseDuration, token) == ById(messages)
    ensures forall id | id in ids :: id in ById(messages)
    ensures forall i | 0 <= i < |ids| :: messages[i].executionId == ids[i] && messages[i].leaseToken == token
    ensures ids == [] ==> t.outbox == ClaimRows(t.outbox, ids, now + c.leaseDuration, token)
  {
    SelectionDistinct(t.outbox, now, EffectiveLimit(c.batchSize), locked, ids);
    hide ClaimSelection;
    forall i | 0 <= i < |ids|
      ensures ids[i] in t.outbox && t.outbox[ids[i]].executionId == ids[i]
      ensures messages[i] == Leased(t.outbox[ids[i]], now + c.leaseDuration, token)
    {
      assert RowKeyed(t, ids[i]);
    }
    ClaimedById(t.outbox, ids, messages, now + c.leaseDuration, token);
  }

  function ClaimedTables(c: RelayConfig, t: Tables, ids: seq<Id>, now: Time, token: string): Tables {
    t.(outbox := ClaimRows(t.outbox, ids, now + c.leaseDuration, token))
  }

  /** ClaimPending, with what DispatchOnce relies on afterwards. */
  method ClaimBatch(db: Database, c: RelayConfig, now: Time, token: string, locked: set<Id>)
    returns (ids: seq<Id>, messages: seq<Message>)
    requires Wf(db.Value())
    modifies db
    ensures ClaimSelection(old(db.outbox), now, EffectiveLimit(c.batchSize), locked, ids)
    ensures db.Value() == ClaimedTables(c, old(db.Value()), ids, now, token)
    ensures ids == [] ==> db.Value() == old(db.Value())
    ensures |messages| == |ids|
    ensures forall i | 0 <= i < |ids| :: messages[i].executionId == ids[i] && messages[i].leaseToken == token
    ensures Copies(old(db.outbox), ids, now + c.leaseDuration, token) == ById(messages)
    ensures forall id | id in ids :: id in ById(messages)
  {
    ghost var t := db.Value();
    ids, messages := db.ClaimPending(c.batchSize, now, now + c.leaseDuration, token, locked);
    ClaimFacts(c, t, now, token, locked, ids, messages);
    hide Wf, ClaimSelection, ClaimRows, Copies, ById;
  }

  /** DispatchOnce of a relay built with this configuration, whatever is in it. `locked`
      are the rows that other transactions hold during the claim, `raw` is what the
      executor answers for the claimed tasks. */
  method DispatchOnce(
    db: Database, configured: RelayConfig, now: Time, token: string, locked: set<Id>, raw: RunResult,
    others: Tables -> Tables)
    returns (ids: seq<Id>, ok: bool)
    requires configured.maxBackoff < Backoff.TWO_63 && configured.initialBackoff < Backoff.TWO_63
    requires Wf(db.Value()) && token != ""
    modifies db
    ensures ClaimSelection(old(db.outbox), now, WithDefaults(configured).batchSize, locked, ids)
    ensures db.Value() == PassTables(WithDefaults(configured), old(db.Value()), ids, now, token, raw, others)
    ensures ok == PassCommits(WithDefaults(configured), old(db.Value()), ids, now, token, raw, others)
  {
    var c := WithDefaults(configured);
    assert c.batchSize == EffectiveLimit(c.batchSize);
    hide Wf, ClaimSelection, Copies, ById, MakePlan;
    hide RelayWriteBack, ValidConfig, RetryAt, WithDefaults, PassTables, PassCommits;
    ids, ok := PassOn(db, c, now, token, locked, raw, others);
  }

  /** The pass itself. */
  method PassOn(
    db: Database, c: RelayConfig, now: Time, token: string, locked: set<Id>, raw: RunResult, others: Tables -> Tables)
    returns (ids: seq<Id>, ok: bool)
    requires ValidConfig(c) && c.maxBackoff < Backoff.TWO_63 && c.initialBackoff < Backoff.TWO_63
    requires Wf(db.Value()) && token != ""
    modifies db
    ensures ClaimSelection(old(db.outbox), now, EffectiveLimit(c.batchSize), locked, ids)
    ensures db.Value() == PassTables(c, old(db.Value()), ids, now, token, raw, others)
    ensures ok == PassCommits(c, old(db.Value()), ids, now, token, raw, others)
  {
    hide Wf, ClaimSelection, Copies, ById, MakePlan, RelayWriteBack, ValidConfig, RetryAt;
    var messages: seq<Message>;
    ids, messages := ClaimBatch(db, c, now, token, locked);
    ok := true;
    if |messages| > 0 {
      var common := CommonToken(messages);
      assert common == Some(messages[0].leaseToken);
      db.OthersCommit(others);
      ok := FinishPass(db, c, now, common.value, ids, messages, ById(messages), raw);
    }
  }

  // ---- one chunk ------------------------------------------------------------------------

  /** What a call leaves and reports. */
  datatype ChunkRun = ChunkRun(tables: Tables, frame: FastPath.Frame)

  /** The publish and the write-back of a chunk whose pending records are known. */
  function ChunkFinish(t: Tables, pending: seq<Record>, raw: RunResult): Option<Tables> {
    var result := if pending == [] then RunResult([], [], false) else Complete(Protocol.IdsOf(pending), raw);
    Protocol.ChunkWriteBack(t, Protocol.MarkFailed(pending, result.failed), result)
  }

  function ChunkCall(
    t: Tables, index: int, requestId: string, cases: seq<Case>, version: string, at: Time, raw: RunResult,
    others: Tables -> Tables): ChunkRun
  {
    var r := PersistChunk(t, requestId, cases, version, at);
    if r.None? || |r.value.1.records| != |r.value.1.messages| then
      ChunkRun(t, FastPath.ChunkFrame(index, cases, None, version, raw, false))
    else
      var (t1, p) := r.value;
      match Protocol.ReplayChunk(p, version)
      case VersionMismatch => ChunkRun(t1, FastPath.ChunkFrame(index, cases, Some(p), version, raw, false))
      case Replayed(_, _, pending) =>
        var done := ChunkFinish(others(t1), pending, raw);
        ChunkRun(
          if done.Some? then done.value else others(t1),
          FastPath.ChunkFrame(index, cases, Some(p), version, raw, done.None?))
  }

  /** The part of dispatchOneBatch after the replay: publish, mark, write back. */
  method FinishChunk(db: Database, pending: seq<ExecutionRecord>, raw: RunResult, now: Time)
    returns (result: RunResult, ok: bool)
    requires Separate(pending)
    requires forall failed :: OneStatusPerId(Protocol.MarkFailed(Values(pending), failed))
    modifies db, pending
    ensures var values := old(Values(pending));
      && result == (if pending == [] then RunResult([], [], false) else Complete(Protocol.IdsOf(values), raw))
      && ok == ChunkFinish(old(db.Value()), values, raw).Some?
      && db.Value() == if ok then ChunkFinish(old(db.Value()), values, raw).value else old(db.Value())
  {
    result := RunResult([], [], false);
    if |pending| > 0 {
      var ids := seq(|pending|, i requires 0 <= i < |pending| reads pending => pending[i].executionId);
      assert ids == Protocol.IdsOf(Values(pending));
      result := Complete(ids, raw);
    }
    FastPath.DispatchBatch(pending, result.failed, now);
    hide Complete, Protocol.ChunkWriteBack, Protocol.MarkFailed, OneStatusPerId;
    ok := db.ChunkWriteBackTx(pending, result);
  }

  lemma {:induction false} CallMismatch(
    t: Tables, index: int, requestId: string, cases: seq<Case>, version: string, at: Time, raw: RunResult,
    others: Tables -> Tables, t1: Tables, p: Persisted)
    requires PersistChunk(t, requestId, cases, version, at) == Some((t1, p)) && |p.records| == |p.messages|
    requires Protocol.ReplayChunk(p, version).VersionMismatch?
    ensures ChunkCall(t, index, requestId, cases, version, at, raw, others)
         == ChunkRun(t1, FastPath.Frame(index, |cases|, [], [], true))
  {
  }

  lemma {:induction false} CallReplayed(
    t: Tables, index: int, requestId: string, cases: seq<Case>, version: string, at: Time, raw: RunResult,
    others: Tables -> Tables, t1: Tables, p: Persisted, success: seq<Id>, failed: seq<Id>, pending: seq<Record>,
    result: RunResult)
    requires PersistChunk(t, requestId, cases, version, at) == Some((t1, p)) && |p.records| == |p.messages|
    requires Protocol.ReplayChunk(p, version) == Protocol.Replayed(success, failed, pending)
    requires result == if pending == [] then RunResult([], [], false) else Complete(Protocol.IdsOf(pending), raw)
    ensures var done := ChunkFinish(others(t1), pending, raw);
      ChunkCall(t, index, requestId, cases, version, at, raw, others)
        == ChunkRun(
             if done.Some? then done.value else others(t1),
             FastPath.Frame(index, |cases|, success + result.success, failed + result.failed,
               result.error || done.None?))
  {
  }

  /** dispatchOneBatch on one database. */
  method DispatchOneBatch(
    db: Database, index: int, requestId: string, cases: seq<Case>, version: string, at: Time, raw: RunResult, now: Time,
    others: Tables -> Tables)
    returns (frame: FastPath.Frame)
    requires Wf(db.Value()) && Paired(db.Value()) && requestId != ""
    modifies db
    ensures ChunkRun(db.Value(), frame) == ChunkCall(old(db.Value()), index, requestId, cases, version, at, raw, others)
  {
    hide Wf, Paired, PersistChunk, ReadBack, ChunkFinish, Complete, ChunkCall, OneStatusPerId;
    hide Protocol.ReplayChunk, Protocol.MarkFailed, Protocol.IdsOf, Values, Separate;
    ghost var t := db.Value();
    ghost var t1, p := PersistReads(t, requestId, cases, version, at);
    var ok, rs, messages := db.PersistChunkTx(requestId, cases, version, at);
    assert ok && p == Persisted(Values(rs), messages);
    var success, failed, pending, mismatch := FastPath.SplitReplay(rs, messages, version);
    if mismatch {
      CallMismatch(t, index, requestId, cases, version, at, raw, others, t1, p);
      return FastPath.Frame(index, |cases|, [], [], true);
    }
    forall marked ensures OneStatusPerId(Protocol.MarkFailed(Values(pending), marked)) {
      PendingAgree(t1, p, requestId, cases, version, success, failed, Values(pending), marked);
    }
    ghost var values := Values(pending);
    forall i | 0 <= i < |pending| ensures pending[i] in rs && fresh(pending[i]) {
      assert pending[i] in pending;
    }
    db.OthersCommit(others);
    var result: RunResult;
    result, ok := FinishChunk(db, pending, raw, now);
    CallReplayed(t, index, requestId, cases, version, at, raw, others, t1, p, success, failed, values, result);
    frame := FastPath.Frame(index, |cases|, success + result.success, failed + result.failed, result.error || !ok);
  }

  lemma {:induction false} PersistReads(t: Tables, requestId: string, cases: seq<Case>, version: string, at: Time)
    returns (t1: Tables, p: Persisted)
    requires Wf(t) && Paired(t) && requestId != ""
    ensures PersistChunk(t, requestId, cases, version, at) == Some((t1, p))
    ensures ReadBack(t1, p, requestId, cases) && |p.records| == |p.messages|
  {
    t1, p := PersistChunkEffect(t, requestId, cases, version, at);
  }

  lemma {:induction false} PendingAgree(
    t: Tables, p: Persisted, requestId: string, cases: seq<Case>, version: string,
    success: seq<Id>, failed: seq<Id>, pending: seq<Record>, marked: seq<Id>)
    requires ReadBack(t, p, requestId, cases)
    requires |p.records| == |p.messages|
    requires Protocol.ReplayChunk(p, version) == Protocol.Replayed(success, failed, pending)
    ensures OneStatusPerId(Protocol.MarkFailed(pending, marked))
  {
    FastPath.MarkedCopiesAgree(t, p, requestId, cases, marked);
  }

  // ---- a single case ----------------------------------------------------------------------

  /** The answer of ExecuteCaseWithRequest: refused before anything is stored, or an
      execution id with a status, an error, or both. */
  datatype Reply = Refused | Reply(executionId: Id, status: Option<Status>, error: bool)

  datatype CaseRun = CaseRun(tables: Tables, reply: Reply)

  function CaseCall(
    t: Tables, requestId: string, found: Option<Case>, version: string, at: Time, raw: RunResult,
    others: Tables -> Tables): CaseRun
  {
    if version == "" || found.None? then CaseRun(t, Refused)
    else
      match PersistSingle(t, requestId, found.value, version, at)
      case None => CaseRun(t, Refused)
      case Some((t1, p)) => CaseFinish(t1, p.records[0], p.messages[0], version, raw, others)
  }

  function CaseFinish(
    t1: Tables, r: Record, m: Message, version: string, raw: RunResult, others: Tables -> Tables): CaseRun
  {
    if r.version != version then CaseRun(t1, Reply(r.executionId, None, true))
    else match ReplayStatus(m)
      case Some(status) => CaseRun(t1, Reply(r.executionId, Some(status), false))
      case None =>
        var confirmed := Protocol.SingleConfirmed(raw);
        var done := Protocol.SingleWriteBack(others(t1), r.executionId, confirmed);
        CaseRun(
          if done.Some? then done.value else others(t1),
          Reply(r.executionId, Some(if confirmed then Wait else DispatchFailed), done.None?))
  }

  /** Each stored record is found under its own id. */
  ghost predicate Keyed(t: Tables) {
    forall id | id in t.records :: t.records[id].executionId == id
  }

  /** ExecuteCaseWithRequest on one database; `found` is what the catalogue holds. */
  method ExecuteCase(
    db: Database, requestId: string, found: Option<Case>, version: string, at: Time, raw: RunResult, now: Time,
    others: Tables -> Tables)
    returns (reply: Reply)
    requires Wf(db.Value()) && requestId != ""
    requires forall t | Keyed(t) :: Keyed(others(t))
    modifies db
    ensures CaseRun(db.Value(), reply) == CaseCall(old(db.Value()), requestId, found, version, at, raw, others)
    ensures version == "" || found.None? ==> reply.Refused? && db.Value() == old(db.Value())
    ensures version != "" && found.Some? ==> reply.Reply?
  {
    if version == "" || found.None? {
      return Refused;
    }
    ghost var t := db.Value();
    var ok, record, message := db.PersistSingleTx(requestId, found.value, version, at);
    if !ok {
      return Refused;
    }
    ghost var t1, r := db.Value(), record.Value();
    SinglePersistedIsStored(t, requestId, found.value, version, at);
    hide Wf, PersistSingle, Protocol.SingleWriteBack;
    if record.version != version {
      return Reply(record.executionId, None, true);
    }
    match ReplayStatus(message) {
      case Some(status) =>
        return Reply(record.executionId, Some(status), false);
      case None =>
        var confirmed := Protocol.SingleConfirmed(raw);
        db.OthersCommit(others);
        assert Keyed(db.Value());
        ok := db.SingleWriteBackTx(record.executionId, confirmed, now);
        return Reply(record.executionId, Some(if confirmed then Wait else DispatchFailed), !ok);
    }
  }

  lemma {:induction false} SinglePersistedIsStored(t: Tables, requestId: string, c: Case, version: string, at: Time)
    requires Wf(t) && requestId != ""
    ensures var r := PersistSingle(t, requestId, c, version, at);
      r.Some? ==>
        var (t1, p) := r.value;
        && |p.records| == |p.messages| == 1
        && Keyed(t1)
  {
  }

  // ---- these calls are steps of the protocol ------------------------------------------------

  /** A pass of the method is a claim, a publish and a write-back of one actor of the state
      machine, with any steps of the others in between. */
  lemma {:induction false} PassIsSteps(
    c: RelayConfig, s: Protocol.System, actor: Protocol.Actor, now: Time, token: string, locked: set<Id>, ids: seq<Id>,
    ph: Protocol.Phases, others: Tables -> Tables)
    requires Protocol.Enabled(c, s, Protocol.Claim(actor, now, token, locked, ids))
    ensures var s1 := Protocol.Apply(c, s, Protocol.Claim(actor, now, token, locked, ids));
      var after := PassTables(c, s.tables, ids, now, token, ph.raw, others);
      if ids == [] then s1.tables == after && actor !in s1.locals
      else Protocol.PhasesOk(c, s1, actor, ph) && others(s1.tables) == Protocol.AtWriteBack(c, s1, actor, ph).tables ==>
        var s4 := Protocol.AtWriteBack(c, s1, actor, ph);
        && Protocol.Enabled(c, s4, Protocol.WriteBack(actor))
        && Protocol.Apply(c, s4, Protocol.WriteBack(actor)).tables == after
  {
    var s1 := Protocol.Apply(c, s, Protocol.Claim(actor, now, token, locked, ids));
    assert ids == [] ==> PassTables(c, s.tables, ids, now, token, ph.raw, others) == s.tables;
    hide PassTables, ClaimedTables, Copies, Protocol.Enabled, Protocol.Apply, Protocol.PhasesOk, Protocol.AtWriteBack;
    ClaimBegins(c, s, actor, now, token, locked, ids);
    if ids != [] && Protocol.PhasesOk(c, s1, actor, ph)
       && others(s1.tables) == Protocol.AtWriteBack(c, s1, actor, ph).tables {
      ClaimedEnds(c, s, s1, actor, now, token, ids, ph, others);
    }
  }

  lemma {:induction false} ClaimedEnds(
    c: RelayConfig, s: Protocol.System, s1: Protocol.System, actor: Protocol.Actor, now: Time, token: string,
    ids: seq<Id>, ph: Protocol.Phases, others: Tables -> Tables)
    requires ids != [] && actor in s1.locals && s1.tables == ClaimedTables(c, s.tables, ids, now, token)
    requires Protocol.PhasesOk(c, s1, actor, ph) && others(s1.tables) == Protocol.AtWriteBack(c, s1, actor, ph).tables
    requires s1.locals[actor]
      == Protocol.RelayClaimed(token, now, ids, Copies(s.tables.outbox, ids, now + c.leaseDuration, token))
    ensures var s4 := Protocol.AtWriteBack(c, s1, actor, ph);
      && Protocol.Enabled(c, s4, Protocol.WriteBack(actor))
      && Protocol.Apply(c, s4, Protocol.WriteBack(actor)).tables
           == PassTables(c, s.tables, ids, now, token, ph.raw, others)
  {
    hide ClaimedTables, Copies, MakePlan, RelayWriteBack, RetryAt, Protocol.AfterPublish;
    hide Protocol.Enabled, Protocol.Apply, Protocol.PhasesOk, Protocol.AtWriteBack;
    Protocol.RemembersOwn(c, s1, actor, ph);
    RelayFinishes(c, Protocol.AtWriteBack(c, s1, actor, ph), actor, s1.locals[actor], ph.raw);
  }

  lemma {:induction false} ClaimBegins(
    c: RelayConfig, s: Protocol.System, actor: Protocol.Actor, now: Time, token: string, locked: set<Id>, ids: seq<Id>)
    requires Protocol.Enabled(c, s, Protocol.Claim(actor, now, token, locked, ids))
    ensures var s1 := Protocol.Apply(c, s, Protocol.Claim(actor, now, token, locked, ids));
      && s1.tables == ClaimedTables(c, s.tables, ids, now, token)
      && (ids == [] ==> s1.tables == s.tables && actor !in s1.locals)
      && (ids != [] ==> actor in s1.locals)
      && var copies := Copies(s.tables.outbox, ids, now + c.leaseDuration, token);
      && (ids != [] ==> s1.locals[actor] == Protocol.RelayClaimed(token, now, ids, copies))
  {
    hide ClaimSelection, Copies;
    assert ids == [] ==> ClaimRows(s.tables.outbox, ids, now + c.leaseDuration, token) == s.tables.outbox;
    hide ClaimRows;
  }

  lemma {:induction false} RelayFinishes(
    c: RelayConfig, s: Protocol.System, actor: Protocol.Actor, l: Protocol.Local, raw: RunResult)
    requires l.RelayClaimed? && actor in s.locals && s.locals[actor] == Protocol.AfterPublish(c, l, raw)
    requires Protocol.Enabled(c, s, Protocol.WriteBack(actor))
    ensures var plan := MakePlan(l.ids, l.copies, raw, c.maxAttempts);
      var done := RelayWriteBack(s.tables, l.token, l.copies, plan, RetryAt(c, l.now, plan.maxAttempt));
      && Protocol.Apply(c, s, Protocol.WriteBack(actor)).tables == (if done.Some? then done.value else s.tables)
      && Protocol.WriteBackOf(c, s.tables, s.locals[actor]) == done
  {
    hide MakePlan, RelayWriteBack, RetryAt, Protocol.Observe;
  }

  lemma {:induction false} NothingToFinish(t: Tables, raw: RunResult)
    ensures ChunkFinish(t, [], raw) == Some(t)
  {
    var none := RunResult([], [], false);
    var t1 := WriteStatuses(t, []).value;
    assert t1.records == t.records;
    assert UpdateRows(t.outbox, [], "", ToPublished) == t.outbox && UpdateRows(t.outbox, [], "", ToDead) == t.outbox;
    assert Protocol.MarkFailed([], []) == [];
  }

  lemma {:induction false} ChunkBegins(
    c: RelayConfig, s: Protocol.System, actor: Protocol.Actor, requestId: string, cases: seq<Case>,
    version: string, at: Time, t1: Tables, p: Persisted)
    requires Protocol.Enabled(c, s, Protocol.BeginChunk(actor, requestId, cases, version, at))
    requires PersistChunk(s.tables, requestId, cases, version, at) == Some((t1, p)) && |p.records| == |p.messages|
    ensures var s1 := Protocol.Apply(c, s, Protocol.BeginChunk(actor, requestId, cases, version, at));
      && s1.tables == t1
      && (actor in s1.locals <==> Protocol.VersionsMatch(p, version) && Protocol.ReplaySplit(p).pending != [])
      && (actor in s1.locals ==> s1.locals[actor] == Protocol.ChunkPersisted(Protocol.ReplaySplit(p).pending))
  {
  }

  lemma {:induction false} ChunkCallIs(
    t: Tables, index: int, requestId: string, cases: seq<Case>, version: string, at: Time, raw: RunResult,
    others: Tables -> Tables, t1: Tables, p: Persisted)
    requires PersistChunk(t, requestId, cases, version, at) == Some((t1, p)) && |p.records| == |p.messages|
    ensures var run := ChunkCall(t, index, requestId, cases, version, at, raw, others);
      var done := ChunkFinish(others(t1), Protocol.ReplaySplit(p).pending, raw);
      if !Protocol.VersionsMatch(p, version) then
        run == ChunkRun(t1, FastPath.ChunkFrame(index, cases, Some(p), version, raw, false))
      else
        run == ChunkRun(if done.Some? then done.value else others(t1),
                        FastPath.ChunkFrame(index, cases, Some(p), version, raw, done.None?))
  {
    hide PersistChunk, ChunkFinish, FastPath.ChunkFrame, Protocol.ReplaySplit;
  }

  lemma {:induction false} ChunkFinishes(
    c: RelayConfig, s: Protocol.System, actor: Protocol.Actor, pending: seq<Record>, raw: RunResult)
    requires actor in s.locals && pending != []
    requires s.locals[actor] == Protocol.AfterPublish(c, Protocol.ChunkPersisted(pending), raw)
    requires Protocol.Enabled(c, s, Protocol.WriteBack(actor))
    ensures var done := ChunkFinish(s.tables, pending, raw);
      && Protocol.Apply(c, s, Protocol.WriteBack(actor)).tables == (if done.Some? then done.value else s.tables)
      && Protocol.WriteBackOf(c, s.tables, s.locals[actor]) == done
  {
    hide Protocol.ChunkWriteBack, Complete, Protocol.MarkFailed, Protocol.Observe, Protocol.IdsOf;
  }

  /** A chunk of the method is a begin, a publish and a write-back of one actor of the state
      machine, with any steps of the others in between; or a begin alone, when the version
      differs or nothing is left to publish. */
  lemma {:induction false} ChunkIsSteps(
    c: RelayConfig, s: Protocol.System, actor: Protocol.Actor, index: int, requestId: string, cases: seq<Case>,
    version: string, at: Time, ph: Protocol.Phases, others: Tables -> Tables)
    requires Inv(c, s) && Protocol.Enabled(c, s, Protocol.BeginChunk(actor, requestId, cases, version, at))
    ensures var s1 := Protocol.Apply(c, s, Protocol.BeginChunk(actor, requestId, cases, version, at));
      var after := ChunkCall(s.tables, index, requestId, cases, version, at, ph.raw, others).tables;
      if actor !in s1.locals then after == s1.tables || after == others(s1.tables)
      else Protocol.PhasesOk(c, s1, actor, ph) && others(s1.tables) == Protocol.AtWriteBack(c, s1, actor, ph).tables ==>
        var s4 := Protocol.AtWriteBack(c, s1, actor, ph);
        && Protocol.Enabled(c, s4, Protocol.WriteBack(actor))
        && Protocol.Apply(c, s4, Protocol.WriteBack(actor)).tables == after
  {
    BeginsOnTables(c, s, Protocol.BeginChunk(actor, requestId, cases, version, at));
    hide Inv, Wf, Paired, PersistChunk, ReadBack, Protocol.Enabled, Protocol.Apply, ChunkCall, ChunkFinish;
    hide Protocol.ReplaySplit, Protocol.VersionsMatch, Protocol.PhasesOk, Protocol.AtWriteBack, FastPath.ChunkFrame;
    hide Protocol.AfterPublish;
    var t1, p := PersistReads(s.tables, requestId, cases, version, at);
    ChunkBegins(c, s, actor, requestId, cases, version, at, t1, p);
    ChunkCallIs(s.tables, index, requestId, cases, version, at, ph.raw, others, t1, p);
    NothingToFinish(others(t1), ph.raw);
    var s1 := Protocol.Apply(c, s, Protocol.BeginChunk(actor, requestId, cases, version, at));
    if actor in s1.locals && Protocol.PhasesOk(c, s1, actor, ph)
       && others(s1.tables) == Protocol.AtWriteBack(c, s1, actor, ph).tables {
      Protocol.RemembersOwn(c, s1, actor, ph);
      ChunkFinishes(c, Protocol.AtWriteBack(c, s1, actor, ph), actor, Protocol.ReplaySplit(p).pending, ph.raw);
    }
  }

  lemma {:induction false} BeginsOnTables(c: RelayConfig, s: Protocol.System, begin: Protocol.Step)
    requires Inv(c, s) && (begin.BeginSingle? || begin.BeginChunk?) && Protocol.Enabled(c, s, begin)
    ensures Wf(s.tables) && Paired(s.tables) && begin.requestId != "" && begin.version != ""
    ensures begin.actor !in s.locals
  {
  }

  lemma {:induction false} SplitOfOne(r: Record, m: Message)
    ensures Protocol.ReplaySplit(Persisted([r], [m])) == match ReplayStatus(m)
      case Some(status) =>
        if status == DispatchFailed then Protocol.Replayed([], [r.executionId], [])
        else Protocol.Replayed([r.executionId], [], [])
      case None => Protocol.Replayed([], [], [r])
  {
    assert [r][..0] == [] && [m][..0] == [];
    assert Protocol.ReplaySplit(Persisted([], [])) == Protocol.Replayed([], [], []);
  }

  lemma {:induction false} SingleBegins(
    c: RelayConfig, s: Protocol.System, begin: Protocol.Step, t1: Tables, r: Record, m: Message)
    requires begin.BeginSingle? && Protocol.Enabled(c, s, begin)
    requires PersistSingle(s.tables, begin.requestId, begin.c, begin.version, begin.at)
      == Some((t1, Persisted([r], [m])))
    ensures var s1, a := Protocol.Apply(c, s, begin), begin.actor;
      && s1.tables == t1
      && (a in s1.locals <==> r.version == begin.version && ReplayStatus(m) == None)
      && (a in s1.locals ==> s1.locals[a] == Protocol.SinglePersisted(r))
  {
    SplitOfOne(r, m);
    hide Protocol.ReplaySplit, Protocol.Observe;
  }

  /** Phase one of a single case reads one record and its message. */
  lemma {:induction false} SingleReadsOne(t: Tables, requestId: string, cs: Case, version: string, at: Time)
    returns (t1: Tables, r: Record, m: Message)
    requires Wf(t) && Paired(t) && requestId != ""
    ensures PersistSingle(t, requestId, cs, version, at) == Some((t1, Persisted([r], [m])))
    ensures PersistChunk(t, requestId, [cs], version, at) == Some((t1, Persisted([r], [m])))
    ensures ReadBack(t1, Persisted([r], [m]), requestId, [cs])
  {
    hide Wf, Paired, PersistSingle, PersistChunk;
    SingleIsChunk(t, requestId, cs, version, at);
    var t', p := PersistReads(t, requestId, [cs], version, at);
    t1, r, m := t', p.records[0], p.messages[0];
    assert p == Persisted([r], [m]);
  }

  lemma {:induction false} SingleFinishes(
    c: RelayConfig, s: Protocol.System, actor: Protocol.Actor, r: Record, raw: RunResult)
    requires actor in s.locals && s.locals[actor] == Protocol.AfterPublish(c, Protocol.SinglePersisted(r), raw)
    requires Protocol.Enabled(c, s, Protocol.WriteBack(actor))
    ensures var done := Protocol.SingleWriteBack(s.tables, r.executionId, Protocol.SingleConfirmed(raw));
      && Protocol.Apply(c, s, Protocol.WriteBack(actor)).tables == (if done.Some? then done.value else s.tables)
      && Protocol.WriteBackOf(c, s.tables, s.locals[actor]) == done
  {
    hide Protocol.SingleWriteBack, Protocol.SingleConfirmed, Protocol.Observe;
  }

  /** A call of the method is a begin, a publish and a write-back of one actor of the state
      machine, with any steps of the others in between; or a begin alone, when the version
      differs or the stored message answers the call. */
  lemma {:induction false} CaseIsSteps(
    c: RelayConfig, s: Protocol.System, begin: Protocol.Step, ph: Protocol.Phases, others: Tables -> Tables)
    requires Inv(c, s) && begin.BeginSingle? && Protocol.Enabled(c, s, begin)
    ensures var a, s1 := begin.actor, Protocol.Apply(c, s, begin);
      var after := CaseCall(s.tables, begin.requestId, Some(begin.c), begin.version, begin.at, ph.raw, others).tables;
      if a !in s1.locals then s1.tables == after
      else Protocol.PhasesOk(c, s1, a, ph) && others(s1.tables) == Protocol.AtWriteBack(c, s1, a, ph).tables ==>
        var s4 := Protocol.AtWriteBack(c, s1, a, ph);
        && Protocol.Enabled(c, s4, Protocol.WriteBack(a))
        && Protocol.Apply(c, s4, Protocol.WriteBack(a)).tables == after
  {
    BeginsOnTables(c, s, begin);
    hide Inv, Wf, Paired, PersistChunk, PersistSingle, ReadBack, Protocol.Enabled, Protocol.Apply, ReplayStatus;
    hide Protocol.PhasesOk, Protocol.AtWriteBack, Protocol.AfterPublish, Protocol.SingleWriteBack;
    var a, s1 := begin.actor, Protocol.Apply(c, s, begin);
    var t1, r, m := SingleReadsOne(s.tables, begin.requestId, begin.c, begin.version, begin.at);
    SingleBegins(c, s, begin, t1, r, m);
    if a in s1.locals && Protocol.PhasesOk(c, s1, a, ph)
       && others(s1.tables) == Protocol.AtWriteBack(c, s1, a, ph).tables {
      Protocol.RemembersOwn(c, s1, a, ph);
      SingleFinishes(c, Protocol.AtWriteBack(c, s1, a, ph), a, r, ph.raw);
    }
  }

  // ---- what a replay answers -----------------------------------------------------------------

  /** The message is published or in a relay's hands. */
  predicate Taken(t: Tables, id: Id) {
    id in t.outbox && (t.outbox[id].state.Published? || t.outbox[id].state.Processing?)
  }

  lemma {:induction false} SplitIsStored(t: Tables, p: Persisted, requestId: string, cases: seq<Case>)
    requires ReadBack(t, p, requestId, cases)
    ensures var r := Protocol.ReplaySplit(p);
      && (forall id | id in r.success :: Taken(t, id))
      && (forall id | id in r.failed :: id in t.outbox && t.outbox[id].state.Dead?)
  {
    ReplayOrigins(p);
    var r := Protocol.ReplaySplit(p);
    forall id | id in r.success ensures Taken(t, id) {
      var states := {OutboxState.Published, Processing};
      assert ReadIn(p, id, states);
      var i :| 0 <= i < |p.records| && p.records[i].executionId == id && p.messages[i].state in states;
      assert ReadBackAt(t, p.records[i], p.messages[i], (requestId, cases[i].caseId));
    }
    forall id | id in r.failed ensures id in t.outbox && t.outbox[id].state.Dead? {
      assert ReadIn(p, id, {Dead});
      var i :| 0 <= i < |p.records| && p.records[i].executionId == id && p.messages[i].state in {Dead};
      assert ReadBackAt(t, p.records[i], p.messages[i], (requestId, cases[i].caseId));
    }
  }
}

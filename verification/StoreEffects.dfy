/** What the table operations change and what they leave alone. */
module StoreEffects {
  import opened Domain
  import opened Store

  /** One outbox row per record, carrying the record's case and version. */
  ghost predicate Paired(t: Tables) {
    && t.records.Keys == t.outbox.Keys
    && forall id | id in t.records :: PairedRow(t, id)
  }

  ghost predicate PairedRow(t: Tables, id: Id)
    requires id in t.records && id in t.outbox
  {
    t.outbox[id].caseId == t.records[id].caseId && t.outbox[id].version == t.records[id].version
  }

  ghost predicate RecordsKept(t: Tables, t': Tables) {
    && (forall id | id in t.records :: id in t'.records && t'.records[id] == t.records[id])
    && (forall k | k in t.byRequest :: k in t'.byRequest && t'.byRequest[k] == t.byRequest[k])
  }

  ghost predicate OutboxKept(t: Tables, t': Tables) {
    forall id | id in t.outbox :: id in t'.outbox && t'.outbox[id] == t.outbox[id]
  }

  // ---- inserts -------------------------------------------------------------

  ghost predicate RecordsInserted(t: Tables, t': Tables, rs: seq<Record>) {
    && Wf(t') && RecordsKept(t, t') && t'.outbox == t.outbox && t'.nextOutbox == t.nextOutbox
    && (forall id | id in t'.records && id !in t.records ::
          exists r :: r in rs && t'.records[id] == r.(executionId := id))
    && (forall r | r in rs :: RequestKey(r) in t'.byRequest)
  }

  lemma {:induction false} InsertRecordsEffect(t: Tables, rs: seq<Record>)
    requires Wf(t) && forall r | r in rs :: r.requestId != ""
    ensures RecordsInserted(t, InsertRecords(t, rs), rs)
  {
    if rs != [] {
      var n := |rs| - 1;
      InsertRecordsEffect(t, rs[..n]);
      assert rs == rs[..n] + [rs[n]];
      var t1 := InsertRecords(t, rs[..n]);
      assert Wf(t1);
      hide Wf, InsertRecord, RecordsInserted;
      InsertRecordEffect(t1, rs[n]);
      RecordsInsertedTwice(t, t1, InsertRecord(t1, rs[n]), rs[..n], rs[n]);
    } else {
      hide Wf;
    }
  }

  lemma {:induction false} KnownRecordsIgnored(t: Tables, rs: seq<Record>)
    requires forall r | r in rs :: r.requestId != "" && RequestKey(r) in t.byRequest
    ensures InsertRecords(t, rs) == t
  {
    if rs != [] {
      var n := |rs| - 1;
      KnownRecordsIgnored(t, rs[..n]);
      assert rs[n] in rs;
    }
  }

  lemma {:induction false} RecordsInsertedTwice(t: Tables, t1: Tables, t2: Tables, rs: seq<Record>, r: Record)
    requires RecordsInserted(t, t1, rs) && RecordsInserted(t1, t2, [r])
    ensures RecordsInserted(t, t2, rs + [r])
  {
  }

  lemma {:induction false} InsertRecordEffect(t: Tables, r: Record)
    requires Wf(t) && r.requestId != ""
    ensures RecordsInserted(t, InsertRecord(t, r), [r])
  {
  }

  /** found is the stored record of each wanted (request, case), in order. */
  ghost predicate AllFound(t: Tables, rs: seq<Record>, found: seq<Record>) {
    |found| == |rs| && forall i | 0 <= i < |rs| :: FoundAt(t, rs[i], found[i])
  }

  ghost predicate FoundAt(t: Tables, wanted: Record, found: Record) {
    && found.executionId in t.records && found == t.records[found.executionId]
    && RequestKey(wanted) in t.byRequest && t.byRequest[RequestKey(wanted)] == found.executionId
    && RequestKey(found) == RequestKey(wanted)
  }

  lemma {:induction false} FindAllEffect(t: Tables, rs: seq<Record>)
    requires Wf(t) && forall r | r in rs :: r.requestId != "" && RequestKey(r) in t.byRequest
    ensures FindAllByRequest(t, rs).Some? && AllFound(t, rs, FindAllByRequest(t, rs).value)
  {
    if rs != [] {
      var n := |rs| - 1;
      FindAllEffect(t, rs[..n]);
      var k := RequestKey(rs[n]);
      assert KeyIndexed(t, k);
      assert RecordIndexed(t, t.byRequest[k]);
    }
  }

  predicate InsertedAt(t: Tables, r: Record, id: Id) {
    id in t.records && t.records[id] == r.(executionId := id)
  }

  /** Records without a request are always inserted, under consecutive new ids. */
  lemma {:induction false} AnonymousInserted(t: Tables, rs: seq<Record>)
    requires Wf(t) && forall r | r in rs :: r.requestId == ""
    ensures var t' := InsertRecords(t, rs);
      && t'.nextExecution == t.nextExecution + |rs| && t'.byRequest == t.byRequest
      && (forall id | id in t'.records :: id < t'.nextExecution)
      && (forall id | id in t.records :: id in t'.records && t'.records[id] == t.records[id])
      && (forall i | 0 <= i < |rs| :: InsertedAt(t', rs[i], t.nextExecution + i))
  {
    if rs != [] {
      var n := |rs| - 1;
      AnonymousInserted(t, rs[..n]);
      assert rs[n] in rs;
      var t1, next := InsertRecords(t, rs[..n]), t.nextExecution + n;
      var t' := InsertRecord(t1, rs[n]);
      assert InsertRecords(t, rs) == t';
      hide InsertRecords, Wf;
      assert t'.records == t1.records[next := rs[n].(executionId := next)];
      forall i | 0 <= i < |rs| ensures InsertedAt(t', rs[i], t.nextExecution + i) {
        if i < n {
          assert InsertedAt(t1, rs[..n][i], t.nextExecution + i);
        }
      }
    } else {
      forall id | id in t.records ensures id < t.nextExecution {
        assert RecordIndexed(t, id);
      }
    }
  }

  /** BatchAdd errors exactly on mixed requests, and otherwise hands back, in order, what is
      stored for each record: with a request, the row of its request and case, whether
      new or not; without one, the record itself under a new id. */
  lemma {:induction false} BatchAddMeans(t: Tables, rs: seq<Record>)
    requires Wf(t)
    ensures AddRecords(t, rs).None? <==>
      exists i, j :: 0 <= i < |rs| && 0 <= j < |rs| && rs[i].requestId != rs[j].requestId
    ensures AddRecords(t, rs).Some? ==>
      var (t', rows) := AddRecords(t, rs).value;
      && |rows| == |rs|
      && (forall i | 0 <= i < |rs| :: StoredAs(t, t', rs[i], rows[i]))
      && (forall i | 0 <= i < |rs| && rs[i].requestId == "" :: rows[i].executionId == t.nextExecution + i)
  {
    if SameRequest(rs) && rs != [] {
      forall r | r in rs ensures r.requestId == rs[0].requestId {
      }
      if rs[0].requestId == "" {
        AnonymousInserted(t, rs);
        forall i | 0 <= i < |rs| ensures InsertedAt(InsertRecords(t, rs), rs[i], t.nextExecution + i) {
        }
        forall id | id in t.records ensures id < t.nextExecution {
          assert RecordIndexed(t, id);
        }
      } else {
        InsertRecordsEffect(t, rs);
        FindAllEffect(InsertRecords(t, rs), rs);
        hide Wf;
        forall i | 0 <= i < |rs| ensures FoundAt(InsertRecords(t, rs), rs[i],
          FindAllByRequest(InsertRecords(t, rs), rs).value[i]) {
        }
      }
      hide InsertRecords, FindAllByRequest;
    } else if rs != [] {
      var i :| 0 <= i < |rs| && rs[i].requestId != rs[0].requestId;
    }
  }

  /** The row is stored; it is the one of the record's request and case, or new. */
  predicate StoredAs(t: Tables, t': Tables, r: Record, row: Record) {
    && row.executionId in t'.records && t'.records[row.executionId] == row
    && row.requestId == r.requestId && row.caseId == r.caseId
    && (r.requestId == "" ==> row == r.(executionId := row.executionId) && row.executionId !in t.records)
    && (r.requestId != "" ==> RequestKey(r) in t'.byRequest && t'.byRequest[RequestKey(r)] == row.executionId)
  }

  ghost predicate MessagesInserted(t: Tables, t': Tables, ms: seq<Message>) {
    && Wf(t') && OutboxKept(t, t')
    && t'.records == t.records && t'.byRequest == t.byRequest && t'.nextExecution == t.nextExecution
    && (forall id | id in t'.outbox && id !in t.outbox ::
          exists m :: m in ms && t'.outbox[id] == m.(outboxId := t'.outbox[id].outboxId))
    && (forall m | m in ms :: m.executionId in t'.outbox)
  }

  lemma {:induction false} InsertMessagesEffect(t: Tables, ms: seq<Message>)
    requires Wf(t)
    ensures MessagesInserted(t, InsertMessages(t, ms), ms)
  {
    if ms != [] {
      var n := |ms| - 1;
      InsertMessagesEffect(t, ms[..n]);
      assert ms == ms[..n] + [ms[n]];
      var t1 := InsertMessages(t, ms[..n]);
      assert Wf(t1);
      hide Wf, InsertMessage, MessagesInserted;
      InsertMessageEffect(t1, ms[n]);
      MessagesInsertedTwice(t, t1, InsertMessage(t1, ms[n]), ms[..n], ms[n]);
    } else {
      hide Wf;
    }
  }

  lemma {:induction false} KnownMessagesIgnored(t: Tables, ms: seq<Message>)
    requires forall m | m in ms :: m.executionId in t.outbox
    ensures InsertMessages(t, ms) == t
  {
    if ms != [] {
      var n := |ms| - 1;
      KnownMessagesIgnored(t, ms[..n]);
      assert ms[n] in ms;
    }
  }

  lemma {:induction false} MessagesInsertedTwice(t: Tables, t1: Tables, t2: Tables, ms: seq<Message>, m: Message)
    requires MessagesInserted(t, t1, ms) && MessagesInserted(t1, t2, [m])
    ensures MessagesInserted(t, t2, ms + [m])
  {
  }

  lemma {:induction false} InsertMessageEffect(t: Tables, m: Message)
    requires Wf(t)
    ensures MessagesInserted(t, InsertMessage(t, m), [m])
  {
  }

  lemma {:induction false} FindMessagesEffect(t: Tables, ms: seq<Message>)
    requires forall m | m in ms :: m.executionId in t.outbox
    ensures var found := FindMessages(t, ms);
      && found.Some? && |found.value| == |ms|
      && forall i | 0 <= i < |ms| :: found.value[i] == t.outbox[ms[i].executionId]
  {
    if ms != [] {
      FindMessagesEffect(t, ms[..|ms| - 1]);
    }
  }

  /** A row as phase one leaves it. */
  ghost predicate FreshRow(t: Tables, id: Id, at: Time)
    requires id in t.records && id in t.outbox
  {
    var m := t.outbox[id];
    && t.records[id].status == Wait
    && m.state == Pending && m.attempts == 0 && m.availableAt == at
    && m.leaseUntil == None && m.leaseToken == "" && !m.published
  }

  /** The read-back of phase one is the stored content of both tables, in the order
      of the cases. */
  ghost predicate ReadBack(t: Tables, p: Persisted, requestId: string, cases: seq<Case>) {
    && |p.records| == |p.messages| == |cases|
    && forall i | 0 <= i < |cases| :: ReadBackAt(t, p.records[i], p.messages[i], (requestId, cases[i].caseId))
  }

  ghost predicate ReadBackAt(t: Tables, r: Record, m: Message, k: (string, Id)) {
    && r.executionId in t.records && r.executionId in t.outbox
    && r == t.records[r.executionId] && m == t.outbox[r.executionId]
    && k in t.byRequest && t.byRequest[k] == r.executionId
    && RequestKey(r) == k
  }

  ghost predicate PersistedOk(t: Tables, t': Tables, p: Persisted, requestId: string, cases: seq<Case>, at: Time) {
    && Wf(t') && Paired(t') && RecordsKept(t, t') && OutboxKept(t, t')
    && (forall id | id in t'.records && id !in t.records :: FreshRow(t', id, at))
    && ReadBack(t', p, requestId, cases)
  }

  ghost predicate RecordStage(t: Tables, t1: Tables, rs: seq<Record>, records: seq<Record>) {
    && t1 == InsertRecords(t, rs) && RecordsInserted(t, t1, rs) && AllFound(t1, rs, records)
    && (forall r | r in rs :: r.requestId != "" && r.status == Wait)
  }

  ghost predicate MessageStage(t1: Tables, t2: Tables, ms: seq<Message>, messages: seq<Message>) {
    && t2 == InsertMessages(t1, ms) && MessagesInserted(t1, t2, ms) && |messages| == |ms|
    && forall i | 0 <= i < |ms| :: ms[i].executionId in t2.outbox && messages[i] == t2.outbox[ms[i].executionId]
  }

  lemma {:induction false} RecordsStaged(t: Tables, rs: seq<Record>) returns (t1: Tables, records: seq<Record>)
    requires Wf(t) && SameRequest(rs) && forall r | r in rs :: r.requestId != "" && r.status == Wait
    ensures AddRecords(t, rs) == Some((t1, records)) && RecordStage(t, t1, rs, records)
  {
    t1 := InsertRecords(t, rs);
    InsertRecordsEffect(t, rs);
    assert Wf(t1) && forall r | r in rs :: r.requestId != "" && RequestKey(r) in t1.byRequest;
    FindAllEffect(t1, rs);
    records := FindAllByRequest(t1, rs).value;
    hide Wf, RecordsInserted;
  }

  lemma {:induction false} MessagesStaged(t1: Tables, ms: seq<Message>) returns (t2: Tables, messages: seq<Message>)
    requires Wf(t1)
    ensures AddMessages(t1, ms) == Some((t2, messages)) && MessageStage(t1, t2, ms, messages)
  {
    t2 := InsertMessages(t1, ms);
    InsertMessagesEffect(t1, ms);
    FindMessagesEffect(t2, ms);
    messages := FindMessages(t2, ms).value;
    hide Wf;
  }

  lemma {:induction false} ChunkStages(t: Tables, requestId: string, cases: seq<Case>, version: string, at: Time)
    returns (t1: Tables, t2: Tables, records: seq<Record>, messages: seq<Message>)
    requires Wf(t) && requestId != ""
    ensures RecordStage(t, t1, NewRecords(requestId, cases, version), records)
    ensures MessageStage(t1, t2, NewMessages(records, NameMap(cases), at), messages)
    ensures PersistChunk(t, requestId, cases, version, at) == Some((t2, Persisted(records, messages)))
  {
    t1, records := RecordsStaged(t, NewRecords(requestId, cases, version));
    assert Wf(t1);
    hide Wf, RecordStage, AddRecords;
    t2, messages := MessagesStaged(t1, NewMessages(records, NameMap(cases), at));
    hide MessageStage, AddMessages;
  }

  lemma {:induction false} ReadBackOfStages(
    t: Tables, t1: Tables, t2: Tables, records: seq<Record>, messages: seq<Message>,
    requestId: string, cases: seq<Case>, version: string, at: Time)
    requires RecordStage(t, t1, NewRecords(requestId, cases, version), records)
    requires MessageStage(t1, t2, NewMessages(records, NameMap(cases), at), messages)
    ensures ReadBack(t2, Persisted(records, messages), requestId, cases)
  {
  }

  /** Phase one never fails on well-formed tables, keeps every stored row, adds a
      WAIT record together with its PENDING message for each new case, and reads back
      what is stored under (request, case). */
  lemma {:induction false} PersistChunkEffect(
    t: Tables, requestId: string, cases: seq<Case>, version: string, at: Time)
    returns (t': Tables, p: Persisted)
    requires Wf(t) && Paired(t) && requestId != ""
    ensures PersistChunk(t, requestId, cases, version, at) == Some((t', p))
    ensures PersistedOk(t, t', p, requestId, cases, at)
  {
    var t1, t2, records, messages := ChunkStages(t, requestId, cases, version, at);
    t', p := t2, Persisted(records, messages);
    RowsKeptByStages(t, t1, t2, NewRecords(requestId, cases, version), records,
      NewMessages(records, NameMap(cases), at), messages);
    hide Wf, Paired, PersistChunk, NameMap, RecordsKept, OutboxKept;
    hide FreshRow, RecordStage, MessageStage, NewRecords, NewMessages, ReadBack;
    ReadBackOfStages(t, t1, t2, records, messages, requestId, cases, version, at);
    NewRowsPaired(t, t1, t2, NewRecords(requestId, cases, version), records, NameMap(cases), at, messages);
  }

  lemma {:induction false} RowsKeptByStages(
    t: Tables, t1: Tables, t2: Tables, rs: seq<Record>, records: seq<Record>, ms: seq<Message>, messages: seq<Message>)
    requires RecordStage(t, t1, rs, records) && MessageStage(t1, t2, ms, messages)
    ensures Wf(t2) && RecordsKept(t, t2) && OutboxKept(t, t2)
  {
  }

  /** A new row as the call asked for it: its case is the last of the chunk with its id. */
  ghost predicate CarriesCase(t: Tables, id: Id, requestId: string, cs: Case, version: string, at: Time) {
    && id in t.records && id in t.outbox
    && t.records[id] == Record(id, requestId, cs.caseId, version, Wait)
    && var m := t.outbox[id];
    m == Message(m.outboxId, id, cs.caseId, cs.caseName, version, Pending, 0, at, None, "", false)
  }

  /** Case i, which the request did not know, has this new row. */
  ghost predicate NewRowOf(
    t: Tables, t': Tables, id: Id, requestId: string, cases: seq<Case>, i: nat, version: string, at: Time)
  {
    && i < |cases| && LastOf(cases, i) && (requestId, cases[i].caseId) !in t.byRequest
    && CarriesCase(t', id, requestId, cases[i], version, at)
  }

  /** Phase one stores what the call carries: each new row has the request, the case, the
      name and the version of the call, waits for the grace, and belongs to a case that
      the request did not know; each such case has got a row. */
  lemma {:induction false} NewRowsCarry(
    t: Tables, requestId: string, cases: seq<Case>, version: string, at: Time, t': Tables, p: Persisted)
    requires Wf(t) && Paired(t) && requestId != ""
    requires PersistChunk(t, requestId, cases, version, at) == Some((t', p))
    ensures forall id | id in t'.records && id !in t.records ::
      exists i: nat :: NewRowOf(t, t', id, requestId, cases, i, version, at)
    ensures forall i | 0 <= i < |cases| && (requestId, cases[i].caseId) !in t.byRequest ::
      var k := (requestId, cases[i].caseId);
      k in t'.byRequest && t'.byRequest[k] !in t.records && t'.byRequest[k] in t'.records
  {
    var t1, t2, records, messages := ChunkStages(t, requestId, cases, version, at);
    var t3, p3 := PersistChunkEffect(t, requestId, cases, version, at);
    assert t' == t2 == t3;
    var names := NameMap(cases);
    forall id | id in t'.records && id !in t.records
      ensures exists i: nat :: NewRowOf(t, t', id, requestId, cases, i, version, at)
    {
      NewRowCarries(t, t1, t2, requestId, cases, version, records, names, at, messages, id);
    }
    hide PersistChunk;
    forall i | 0 <= i < |cases| && (requestId, cases[i].caseId) !in t.byRequest
      ensures var k := (requestId, cases[i].caseId);
        k in t'.byRequest && t'.byRequest[k] !in t.records && t'.byRequest[k] in t'.records
    {
      assert ReadBackAt(t', p3.records[i], p3.messages[i], (requestId, cases[i].caseId));
      if p3.records[i].executionId in t.records {
        StoredKeyKnown(t, t', p3.records[i].executionId);
      }
    }
  }

  lemma {:induction false} StoredKeyKnown(t: Tables, t': Tables, id: Id)
    requires Wf(t) && RecordsKept(t, t') && id in t.records && t'.records[id].requestId != ""
    ensures RequestKey(t'.records[id]) in t.byRequest
  {
    assert RecordIndexed(t, id);
  }

  lemma {:induction false} NewRowCarries(
    t: Tables, t1: Tables, t2: Tables, requestId: string, cases: seq<Case>, version: string, records: seq<Record>,
    names: map<Id, string>, at: Time, messages: seq<Message>, id: Id)
    requires Wf(t) && Paired(t) && requestId != "" && names == NameMap(cases)
    requires RecordStage(t, t1, NewRecords(requestId, cases, version), records)
    requires MessageStage(t1, t2, NewMessages(records, names, at), messages)
    requires id in t2.records && id !in t.records
    ensures exists i: nat :: NewRowOf(t, t2, id, requestId, cases, i, version, at)
  {
    var rs := NewRecords(requestId, cases, version);
    var k :| 0 <= k < |rs| && t1.records[id] == rs[k].(executionId := id);
    assert cases[k].caseId in names;
    var i := NamesAreOfCases(cases, cases[k].caseId);
    assert t2.records == t1.records && t1.outbox == t.outbox;
    assert id !in t1.outbox by {
      assert id !in t.records.Keys && t.records.Keys == t.outbox.Keys;
    }
    NewRecordHasMessage(t, t1, t2, rs, records, names, at, id);
    MessageIsOfRecord(t1, t2, rs, records, names, at, id);
    NewKeyUnknown(t, t1, rs, id);
    hide NewRecords, NewMessages, RecordsInserted, MessagesInserted, AllFound, Wf, Paired, NameMap;
    assert NewRowOf(t, t2, id, requestId, cases, i, version, at);
  }

  /** A new record's request and case were not stored before. */
  lemma {:induction false} NewKeyUnknown(t: Tables, t1: Tables, rs: seq<Record>, id: Id)
    requires Wf(t) && RecordsInserted(t, t1, rs) && id in t1.records && id !in t.records
    requires forall r | r in rs :: r.requestId != ""
    ensures RequestKey(t1.records[id]) !in t.byRequest
  {
    assert RecordIndexed(t1, id);
    if RequestKey(t1.records[id]) in t.byRequest {
      KeyStays(t, t1, RequestKey(t1.records[id]));
    }
  }

  lemma {:induction false} KeyStays(t: Tables, t': Tables, k: (string, Id))
    requires Wf(t) && RecordsKept(t, t') && k in t.byRequest
    ensures k in t'.byRequest && t'.byRequest[k] == t.byRequest[k] && t.byRequest[k] in t.records
  {
    assert KeyIndexed(t, k);
  }

  /** It changes nothing when every case of the chunk was known to the request. */
  lemma {:induction false} PersistKnownChunk(
    t: Tables, requestId: string, cases: seq<Case>, version: string, at: Time)
    returns (p: Persisted)
    requires Wf(t) && Paired(t) && requestId != ""
    requires forall c | c in cases :: (requestId, c.caseId) in t.byRequest
    ensures PersistChunk(t, requestId, cases, version, at) == Some((t, p))
    ensures ReadBack(t, p, requestId, cases)
  {
    var t1, t2, records, messages := ChunkStages(t, requestId, cases, version, at);
    p := Persisted(records, messages);
    KnownChunkUnchanged(t, t1, t2, requestId, cases, version, records, messages, at);
    hide Wf, Paired, PersistChunk, NameMap, RecordStage, MessageStage, NewRecords, NewMessages, ReadBack;
    ReadBackOfStages(t, t1, t2, records, messages, requestId, cases, version, at);
  }

  lemma {:induction false} KnownChunkUnchanged(
    t: Tables, t1: Tables, t2: Tables, requestId: string, cases: seq<Case>, version: string,
    records: seq<Record>, messages: seq<Message>, at: Time)
    requires Wf(t) && Paired(t) && requestId != ""
    requires forall c | c in cases :: (requestId, c.caseId) in t.byRequest
    requires RecordStage(t, t1, NewRecords(requestId, cases, version), records)
    requires MessageStage(t1, t2, NewMessages(records, NameMap(cases), at), messages)
    ensures t2 == t
  {
    hide InsertRecords, InsertMessages, RecordsInserted, MessagesInserted, AllFound, NewRecords, NewMessages, NameMap;
    hide Wf, Paired;
    var rs := NewRecords(requestId, cases, version);
    RecordsKnown(t, requestId, cases, version);
    KnownRecordsIgnored(t, rs);
    MessagesKnown(t, rs, records, NameMap(cases), at);
    KnownMessagesIgnored(t, NewMessages(records, NameMap(cases), at));
  }

  lemma {:induction false} RecordsKnown(t: Tables, requestId: string, cases: seq<Case>, version: string)
    requires requestId != "" && forall c | c in cases :: (requestId, c.caseId) in t.byRequest
    ensures forall r | r in NewRecords(requestId, cases, version) :: r.requestId != "" && RequestKey(r) in t.byRequest
  {
    var rs := NewRecords(requestId, cases, version);
    forall r | r in rs ensures r.requestId != "" && RequestKey(r) in t.byRequest {
      var i :| 0 <= i < |rs| && rs[i] == r;
      assert cases[i] in cases;
    }
  }

  lemma {:induction false} MessagesKnown(
    t: Tables, rs: seq<Record>, records: seq<Record>, names: map<Id, string>, at: Time)
    requires Paired(t) && AllFound(t, rs, records)
    ensures forall m | m in NewMessages(records, names, at) :: m.executionId in t.outbox
  {
    var ms := NewMessages(records, names, at);
    forall m | m in ms ensures m.executionId in t.outbox {
      var i :| 0 <= i < |ms| && ms[i] == m;
      assert FoundAt(t, rs[i], records[i]);
      assert records[i].executionId in t.records.Keys;
    }
  }

  /** A record that the chunk added has its message, as phase one leaves both. */
  lemma {:induction false} NewRow(
    t: Tables, t1: Tables, t2: Tables, rs: seq<Record>, records: seq<Record>, names: map<Id, string>, at: Time, id: Id)
    requires Wf(t) && Paired(t) && forall r | r in rs :: r.requestId != "" && r.status == Wait
    requires RecordsInserted(t, t1, rs) && AllFound(t1, rs, records)
    requires MessagesInserted(t1, t2, NewMessages(records, names, at))
    requires id in t2.records && id !in t.records
    ensures id in t2.outbox && PairedRow(t2, id) && FreshRow(t2, id, at)
  {
    hide Wf, Paired, RecordsInserted, AllFound, NewMessages;
    assert t2.records == t1.records;
    NewRecordHasMessage(t, t1, t2, rs, records, names, at, id);
    MessageIsOfRecord(t1, t2, rs, records, names, at, id);
  }

  lemma {:induction false} OutboxHasRecord(
    t: Tables, t1: Tables, t2: Tables, rs: seq<Record>, records: seq<Record>, names: map<Id, string>, at: Time, id: Id)
    requires Paired(t) && RecordsInserted(t, t1, rs) && AllFound(t1, rs, records)
    requires MessagesInserted(t1, t2, NewMessages(records, names, at))
    requires id in t2.outbox
    ensures id in t2.records
  {
    if id in t1.outbox {
      assert id in t.outbox.Keys && id in t.records.Keys;
    } else {
      hide Paired, RecordsInserted, AllFound, NewMessages;
      MessageIsOfRecord(t1, t2, rs, records, names, at, id);
    }
  }

  lemma {:induction false} OldRow(t: Tables, t2: Tables, id: Id)
    requires Paired(t) && RecordsKept(t, t2) && OutboxKept(t, t2) && id in t.records
    ensures id in t2.records && id in t2.outbox && PairedRow(t2, id)
  {
    assert id in t.outbox.Keys && PairedRow(t, id);
  }

  lemma {:induction false} NewRowsPaired(
    t: Tables, t1: Tables, t2: Tables, rs: seq<Record>, records: seq<Record>, names: map<Id, string>, at: Time,
    messages: seq<Message>)
    requires Wf(t) && Paired(t)
    requires RecordStage(t, t1, rs, records)
    requires MessageStage(t1, t2, NewMessages(records, names, at), messages)
    ensures Paired(t2)
    ensures forall id | id in t2.records && id !in t.records :: FreshRow(t2, id, at)
  {
    assert RecordsKept(t, t1) && t1.outbox == t.outbox && t2.records == t1.records && OutboxKept(t1, t2);
    assert RecordsKept(t, t2) && OutboxKept(t, t2);
    hide Wf, InsertRecords, InsertMessages, RecordsInserted, MessagesInserted, AllFound, NewMessages, FreshRow, Paired;
    hide RecordsKept, OutboxKept;
    InsertedRowsPaired(t, t1, t2, rs, records, names, at);
  }

  lemma {:induction false} InsertedRowsPaired(
    t: Tables, t1: Tables, t2: Tables, rs: seq<Record>, records: seq<Record>, names: map<Id, string>, at: Time)
    requires Wf(t) && Paired(t) && RecordsKept(t, t2) && OutboxKept(t, t2)
    requires forall r | r in rs :: r.requestId != "" && r.status == Wait
    requires RecordsInserted(t, t1, rs) && AllFound(t1, rs, records)
    requires MessagesInserted(t1, t2, NewMessages(records, names, at))
    ensures Paired(t2)
    ensures forall id | id in t2.records && id !in t.records :: FreshRow(t2, id, at)
  {
    hide Wf, RecordsInserted, MessagesInserted, AllFound, NewMessages, FreshRow, RecordsKept;
    forall id | id in t2.outbox ensures id in t2.records {
      OutboxHasRecord(t, t1, t2, rs, records, names, at, id);
    }
    hide OutboxKept, PairedRow;
    forall id | id in t2.records
      ensures id in t2.outbox && PairedRow(t2, id) && (id !in t.records ==> FreshRow(t2, id, at))
    {
      if id in t.records {
        OldRow(t, t2, id);
      } else {
        NewRow(t, t1, t2, rs, records, names, at, id);
      }
    }
    assert forall id :: id in t2.records <==> id in t2.outbox;
  }

  lemma {:induction false} NewRecordHasMessage(
    t: Tables, t1: Tables, t2: Tables, rs: seq<Record>, records: seq<Record>, names: map<Id, string>, at: Time, id: Id)
    requires Wf(t) && Paired(t) && forall r | r in rs :: r.requestId != "" && r.status == Wait
    requires RecordsInserted(t, t1, rs) && AllFound(t1, rs, records)
    requires MessagesInserted(t1, t2, NewMessages(records, names, at))
    requires id in t1.records && id !in t.records
    ensures id in t2.outbox && id !in t1.outbox && t1.records[id].status == Wait
  {
    assert RecordIndexed(t1, id);
    var r :| r in rs && t1.records[id] == r.(executionId := id);
    var i :| 0 <= i < |rs| && rs[i] == r;
    assert FoundAt(t1, rs[i], records[i]);
    var ms := NewMessages(records, names, at);
    assert ms[i] in ms;
  }

  lemma {:induction false} MessageIsOfRecord(
    t1: Tables, t2: Tables, rs: seq<Record>, records: seq<Record>, names: map<Id, string>, at: Time, id: Id)
    requires AllFound(t1, rs, records)
    requires MessagesInserted(t1, t2, NewMessages(records, names, at))
    requires id in t2.outbox && id !in t1.outbox
    ensures id in t1.records
    ensures t2.outbox[id]
      == NewMessage(t1.records[id], NameOf(names, t1.records[id].caseId), at).(outboxId := t2.outbox[id].outboxId)
  {
  }

  lemma {:induction false} OneRecordAdded(t: Tables, r: Record) returns (row: Record)
    requires Wf(t) && r.requestId != ""
    ensures AddRecord(t, r) == Some((InsertRecord(t, r), row))
    ensures AddRecords(t, [r]) == Some((InsertRecord(t, r), [row]))
  {
    var rs := [r];
    assert rs[..0] == [];
    var t1 := InsertRecord(t, r);
    assert InsertRecords(t, rs) == t1;
    InsertRecordEffect(t, r);
    FindAllEffect(t1, rs);
    assert FindAllByRequest(t1, rs[..0]) == Some([]);
    hide InsertRecord, Wf;
    row := FindByRequest(t1, r.requestId, r.caseId).value;
    assert [] + [row] == [row];
    assert FindAllByRequest(t1, rs) == Some([row]);
  }

  lemma {:induction false} OneMessageAdded(t: Tables, m: Message)
    ensures var t' := InsertMessage(t, m);
      && m.executionId in t'.outbox
      && AddMessage(t, m) == Some((t', t'.outbox[m.executionId]))
      && AddMessages(t, [m]) == Some((t', [t'.outbox[m.executionId]]))
  {
    var ms := [m];
    assert ms[..0] == [];
    var t' := InsertMessage(t, m);
    assert InsertMessages(t, ms) == t';
    assert m.executionId in t'.outbox;
    hide InsertMessage;
    assert FindMessages(t', ms[..0]) == Some([]);
    assert [] + [t'.outbox[m.executionId]] == [t'.outbox[m.executionId]];
    assert FindMessages(t', ms) == Some([t'.outbox[m.executionId]]);
  }

  /** The single-case phase one is the chunk phase one on a chunk of one. */
  lemma {:induction false} SingleIsChunk(t: Tables, requestId: string, c: Case, version: string, at: Time)
    requires Wf(t) && requestId != ""
    ensures PersistSingle(t, requestId, c, version, at) == PersistChunk(t, requestId, [c], version, at)
  {
    var r := NewRecord(requestId, c.caseId, version);
    assert NewRecords(requestId, [c], version) == [r];
    var row := OneRecordAdded(t, r);
    InsertRecordEffect(t, r);
    assert row.caseId == c.caseId by {
      FindAllEffect(InsertRecord(t, r), [r]);
      assert FoundAt(InsertRecord(t, r), r, row) by {
        assert AddRecords(t, [r]) == Some((InsertRecord(t, r), [row]));
        assert InsertRecords(t, [r]) == InsertRecord(t, r) by {
          assert [r][..0] == [];
        }
        assert AllFound(InsertRecord(t, r), [r], [row]);
        assert FoundAt(InsertRecord(t, r), [r][0], [row][0]);
      }
    }
    assert NameMap([c][..0]) == map[];
    var m := NewMessage(row, c.caseName, at);
    assert NewMessages([row], NameMap([c]), at) == [m];
    OneMessageAdded(InsertRecord(t, r), m);
    hide InsertRecord, InsertMessage, AddRecord, AddRecords, AddMessage;
    hide AddMessages, Wf, NewRecords, NewMessages, NameMap;
  }

  // ---- write-backs -----------------------------------------------------------

  lemma {:induction false} StatusForWitness(rs: seq<Record>, id: Id)
    ensures StatusFor(rs, id).Some? <==> exists r :: r in rs && r.executionId == id && r.status != Wait
    ensures StatusFor(rs, id).Some? ==>
      exists r :: r in rs && r.executionId == id && r.status == StatusFor(rs, id).value && r.status != Wait
  {
    if rs != [] {
      StatusForWitness(rs[1..], id);
      assert rs == [rs[0]] + rs[1..];
    }
  }

  /** Two tables with the same keys, rows differing only where the given write is
      allowed to differ. */
  ghost predicate SameShape(t: Tables, t': Tables) {
    && t'.records.Keys == t.records.Keys && t'.byRequest == t.byRequest
    && t'.outbox.Keys == t.outbox.Keys
    && t'.nextExecution == t.nextExecution && t'.nextOutbox == t.nextOutbox
    && (forall id | id in t.records :: t'.records[id] == t.records[id].(status := t'.records[id].status))
    && (forall id | id in t.outbox :: SameIdentity(t.outbox[id], t'.outbox[id]))
  }

  predicate SameIdentity(m: Message, m': Message) {
    && m'.outboxId == m.outboxId && m'.executionId == m.executionId
    && m'.caseId == m.caseId && m'.caseName == m.caseName && m'.version == m.version
  }

  lemma {:induction false} SameShapeKeeps(t: Tables, t': Tables)
    requires Wf(t) && Paired(t) && SameShape(t, t')
    ensures Wf(t') && Paired(t')
  {
    forall id | id in t'.records ensures RecordIndexed(t', id) && id in t'.outbox && PairedRow(t', id) {
      assert RecordIndexed(t, id) && PairedRow(t, id);
    }
    forall k | k in t'.byRequest ensures KeyIndexed(t', k) {
      assert KeyIndexed(t, k);
      assert RecordIndexed(t, t.byRequest[k]);
    }
    forall id | id in t'.outbox ensures RowKeyed(t', id) {
      assert RowKeyed(t, id);
    }
  }
}
